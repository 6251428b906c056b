/** The guards around a provider call: token bucket, circuit breaker, expiring cache, retry. */
module Resilience {
  import opened Basics

  // ---------------------------------------------------------------- token bucket

  datatype Bucket = Bucket(capacity: real, refill: real, tokens: real, updated: real)
  datatype Request = Request(now: real, n: real)

  /** What a refill rate adds between two times. */
  function Accrued(refill: real, from: real, to: real): real { (to - from) * refill }

  function Refilled(b: Bucket, now: real): real {
    Min(b.capacity, b.tokens + Accrued(b.refill, b.updated, now))
  }

  predicate Grants(b: Bucket, q: Request) {
    Refilled(b, q.now) >= q.n
  }

  function AfterTake(b: Bucket, q: Request): Bucket {
    b.(tokens := if Grants(b, q) then Refilled(b, q.now) - q.n else Refilled(b, q.now), updated := q.now)
  }

  class TokenBucket {
    const capacity: real
    const refill: real
    var tokens: real
    var updated: real

    ghost function Snapshot(): Bucket
      reads this
    {
      Bucket(capacity, refill, tokens, updated)
    }

    constructor (capacity: real, refill: real, now: real)
      ensures Snapshot() == Bucket(capacity, refill, capacity, now)
    {
      this.capacity, this.refill, this.tokens, this.updated := capacity, refill, capacity, now;
    }

    method Take(now: real, n: real) returns (ok: bool)
      modifies this
      ensures ok == Grants(old(Snapshot()), Request(now, n))
      ensures Snapshot() == AfterTake(old(Snapshot()), Request(now, n))
    {
      hide Accrued;
      tokens := Min(capacity, tokens + Accrued(refill, updated, now));
      updated := now;
      ok := tokens >= n;
      if ok {
        tokens := tokens - n;
      }
    }
  }

  /** What a sequence of requests is granted in all. */
  function Granted(b: Bucket, qs: seq<Request>): real
    decreases |qs|
  {
    if qs == [] then 0.0
    else (if Grants(b, qs[0]) then qs[0].n else 0.0) + Granted(AfterTake(b, qs[0]), qs[1..])
  }

  function AfterAll(b: Bucket, qs: seq<Request>): Bucket
    decreases |qs|
  {
    if qs == [] then b else AfterAll(AfterTake(b, qs[0]), qs[1..])
  }

  /** Requests for non-negative amounts at times that never run backwards from `from`. */
  ghost predicate Orderly(qs: seq<Request>, from: real) {
    qs == [] || (qs[0].n >= 0.0 && qs[0].now >= from && Orderly(qs[1..], qs[0].now))
  }

  lemma AccruedFacts(refill: real, a: real, b: real, c: real)
    ensures Accrued(refill, a, b) + Accrued(refill, b, c) == Accrued(refill, a, c)
    ensures refill >= 0.0 && a <= b ==> Accrued(refill, a, b) >= 0.0
  {
  }

  /** Nothing is granted that was not in the bucket or refilled since. */
  lemma {:induction false} GrantsAreFunded(b: Bucket, qs: seq<Request>)
    requires qs != [] && Orderly(qs, b.updated) && b.refill >= 0.0
    ensures Granted(b, qs) + AfterAll(b, qs).tokens <= b.tokens + Accrued(b.refill, b.updated, qs[|qs| - 1].now)
    decreases |qs|
  {
    hide Accrued;
    if |qs| > 1 {
      GrantsAreFunded(AfterTake(b, qs[0]), qs[1..]);
      AccruedFacts(b.refill, b.updated, qs[0].now, qs[|qs| - 1].now);
    }
  }

  /** From an honest bucket, no run of requests empties it past nothing or fills it past its capacity. */
  lemma {:induction false} TokensStayWithin(b: Bucket, qs: seq<Request>)
    requires Orderly(qs, b.updated) && b.refill >= 0.0 && b.tokens >= 0.0 && b.capacity >= 0.0
    ensures 0.0 <= AfterAll(b, qs).tokens <= if qs == [] then b.tokens else b.capacity
    decreases |qs|
  {
    hide Accrued;
    if qs != [] {
      AccruedFacts(b.refill, b.updated, qs[0].now, 0.0);
      TokensStayWithin(AfterTake(b, qs[0]), qs[1..]);
    }
  }

  /** The rate bound: whatever the bucket's past, a run of requests spread over some time is granted at most
      one full bucket plus what that time refills. */
  lemma RateBound(b: Bucket, qs: seq<Request>)
    requires qs != [] && Orderly(qs, b.updated) && b.refill >= 0.0 && b.tokens >= 0.0 && b.capacity >= 0.0
    ensures Granted(b, qs) <= b.capacity + Accrued(b.refill, qs[0].now, qs[|qs| - 1].now)
  {
    hide Accrued;
    var c := AfterTake(b, qs[0]);
    AccruedFacts(b.refill, b.updated, qs[0].now, 0.0);
    AccruedFacts(b.refill, qs[0].now, qs[0].now, 0.0);
    TokensStayWithin(c, qs[1..]);
    if |qs| > 1 {
      GrantsAreFunded(c, qs[1..]);
    }
  }

  lemma {:induction false} OrderlySplit(qs: seq<Request>, from: real, i: nat)
    requires Orderly(qs, from) && i < |qs|
    ensures Orderly(qs[..i], from) && Orderly(qs[i..], if i == 0 then from else qs[i - 1].now)
    decreases i
  {
    if i > 0 {
      OrderlySplit(qs[1..], qs[0].now, i - 1);
      assert qs[1..][..i - 1] == qs[..i][1..] && qs[1..][i - 1..] == qs[i..];
    }
  }

  lemma {:induction false} OrderlyPrefix(qs: seq<Request>, from: real, i: nat)
    requires Orderly(qs, from) && i <= |qs|
    ensures Orderly(qs[..i], from)
    decreases i
  {
    if i > 0 {
      OrderlyPrefix(qs[1..], qs[0].now, i - 1);
      assert qs[1..][..i - 1] == qs[..i][1..];
    }
  }

  lemma {:induction false} AfterAllKeeps(b: Bucket, qs: seq<Request>)
    ensures var c := AfterAll(b, qs);
      && c.capacity == b.capacity && c.refill == b.refill
      && c.updated == if qs == [] then b.updated else qs[|qs| - 1].now
    decreases |qs|
  {
    if qs != [] {
      AfterAllKeeps(AfterTake(b, qs[0]), qs[1..]);
    }
  }

  /** The same bound for every stretch i..j of every run, between the times of its first and last request. */
  lemma RateBoundAnywhere(b: Bucket, qs: seq<Request>, i: nat, j: nat)
    requires Orderly(qs, b.updated) && i < j <= |qs| && b.refill >= 0.0 && b.tokens >= 0.0 && b.capacity >= 0.0
    ensures Granted(AfterAll(b, qs[..i]), qs[i..j]) <= b.capacity + Accrued(b.refill, qs[i].now, qs[j - 1].now)
  {
    OrderlyPrefix(qs, b.updated, j);
    OrderlySplit(qs[..j], b.updated, i);
    assert qs[..j][..i] == qs[..i] && qs[..j][i..] == qs[i..j];
    AfterAllKeeps(b, qs[..i]);
    TokensStayWithin(b, qs[..i]);
    RateBound(AfterAll(b, qs[..i]), qs[i..j]);
  }

  /** What is asked for in all. */
  function Asked(qs: seq<Request>): real {
    if qs == [] then 0.0 else qs[0].n + Asked(qs[1..])
  }

  /** Each request asks for no more than the bucket holds, nor more than has been refilled since the one before. */
  ghost predicate Sustained(b: Bucket, qs: seq<Request>, from: real)
    decreases |qs|
  {
    qs == [] || (qs[0].n <= b.capacity && qs[0].n <= Accrued(b.refill, from, qs[0].now)
                 && Sustained(b, qs[1..], qs[0].now))
  }

  lemma {:induction false} SameRateSustains(b: Bucket, c: Bucket, qs: seq<Request>, from: real)
    requires Sustained(b, qs, from) && c.capacity == b.capacity && c.refill == b.refill
    ensures Sustained(c, qs, from)
    decreases |qs|
  {
    hide Accrued;
    if qs != [] {
      SameRateSustains(b, c, qs[1..], qs[0].now);
    }
  }

  /** Nothing is refused that the refill has earned: a run of requests, each within the capacity and within what was
      refilled since the one before, is granted in full, however empty the bucket was to begin with. */
  lemma {:induction false} SustainedIsGranted(b: Bucket, qs: seq<Request>)
    requires Orderly(qs, b.updated) && Sustained(b, qs, b.updated)
    requires b.refill >= 0.0 && b.tokens >= 0.0 && b.capacity >= 0.0
    ensures Granted(b, qs) == Asked(qs)
    decreases |qs|
  {
    hide Accrued;
    if qs != [] {
      AccruedFacts(b.refill, b.updated, qs[0].now, 0.0);
      SameRateSustains(b, AfterTake(b, qs[0]), qs[1..], qs[0].now);
      SustainedIsGranted(AfterTake(b, qs[0]), qs[1..]);
    }
  }

  // ---------------------------------------------------------------- circuit breaker

  datatype Phase = CLOSED | OPEN | HALF_OPEN
  datatype Breaker = Breaker(threshold: int, recovery: real, failures: nat, phase: Phase, openedAt: real)
  datatype Event = Call(now: real) | Succeeded(now: real) | Failed(now: real)

  predicate Allows(b: Breaker, now: real) {
    b.phase != OPEN || now - b.openedAt >= b.recovery
  }

  function Observe(b: Breaker, e: Event): Breaker {
    match e
    case Call(now) => if b.phase == OPEN && Allows(b, now) then b.(phase := HALF_OPEN) else b
    case Succeeded(_) => b.(failures := 0, phase := CLOSED)
    case Failed(now) =>
      if b.failures + 1 >= b.threshold || b.phase == HALF_OPEN
      then b.(failures := b.failures + 1, phase := OPEN, openedAt := now)
      else b.(failures := b.failures + 1)
  }

  class CircuitBreaker {
    const threshold: int
    const recovery: real
    var failures: nat
    var phase: Phase
    var openedAt: real

    ghost function Snapshot(): Breaker
      reads this
    {
      Breaker(threshold, recovery, failures, phase, openedAt)
    }

    constructor (threshold: int, recovery: real)
      ensures Snapshot() == Breaker(threshold, recovery, 0, CLOSED, 0.0)
    {
      this.threshold, this.recovery, failures, phase, openedAt := threshold, recovery, 0, CLOSED, 0.0;
    }

    method Allow(now: real) returns (ok: bool)
      modifies this
      ensures ok == Allows(old(Snapshot()), now) && Snapshot() == Observe(old(Snapshot()), Call(now))
    {
      if phase == OPEN {
        if now - openedAt >= recovery {
          phase := HALF_OPEN;
          return true;
        }
        return false;
      }
      return true;
    }

    method RecordSuccess(now: real)
      modifies this
      ensures Snapshot() == Observe(old(Snapshot()), Succeeded(now))
    {
      failures, phase := 0, CLOSED;
    }

    method RecordFailure(now: real)
      modifies this
      ensures Snapshot() == Observe(old(Snapshot()), Failed(now))
    {
      failures := failures + 1;
      if failures >= threshold || phase == HALF_OPEN {
        phase, openedAt := OPEN, now;
      }
    }
  }

  function ObserveAll(b: Breaker, es: seq<Event>): Breaker {
    if es == [] then b else Observe(ObserveAll(b, es[..|es| - 1]), es[|es| - 1])
  }

  /** Failures since the last success. */
  function FailureRun(es: seq<Event>): nat {
    if es == [] then 0
    else
      match es[|es| - 1]
      case Call(_) => FailureRun(es[..|es| - 1])
      case Succeeded(_) => 0
      case Failed(_) => FailureRun(es[..|es| - 1]) + 1
  }

  /** After any history the breaker is closed exactly when the current run of failures is below the threshold. */
  lemma {:induction false} ClosedMeansFewFailures(threshold: int, recovery: real, es: seq<Event>)
    requires threshold >= 1
    ensures var b := ObserveAll(Breaker(threshold, recovery, 0, CLOSED, 0.0), es);
      && b.failures == FailureRun(es) && b.threshold == threshold && b.recovery == recovery
      && (b.phase == CLOSED <==> FailureRun(es) < threshold)
  {
    if es != [] {
      ClosedMeansFewFailures(threshold, recovery, es[..|es| - 1]);
    }
  }

  ghost predicate NoSuccessBefore(es: seq<Event>, now: real, from: real) {
    forall i :: 0 <= i < |es| ==> !es[i].Succeeded? && from <= es[i].now <= now
  }

  /** Once open, the breaker refuses every call until a success is recorded or the recovery time has
      passed; failures arriving meanwhile only push that time back. */
  lemma {:induction false} OpenRefuses(b: Breaker, es: seq<Event>, now: real)
    requires b.phase == OPEN && NoSuccessBefore(es, now, b.openedAt) && now - b.openedAt < b.recovery
    ensures var c := ObserveAll(b, es);
      !Allows(c, now) && c.phase == OPEN && b.openedAt <= c.openedAt && c.recovery == b.recovery
  {
    if es != [] {
      OpenRefuses(b, es[..|es| - 1], now);
    } else {
    }
  }

  /** When the latest failure was. */
  function LastFailure(es: seq<Event>): real {
    if es == [] then 0.0 else if es[|es| - 1].Failed? then es[|es| - 1].now else LastFailure(es[..|es| - 1])
  }

  /** A call was made once the recovery time had passed since the latest failure. */
  ghost predicate TrialSince(es: seq<Event>, recovery: real) {
    exists k :: 0 <= k < |es| && IsTrial(es, k, recovery)
  }

  /** No failure has come since this call, and the latest before it was the recovery time ago. */
  ghost predicate IsTrial(es: seq<Event>, k: nat, recovery: real)
    requires k < |es|
  {
    && es[k].Call? && es[k].now - LastFailure(es[..k]) >= recovery
    && forall j :: k < j < |es| ==> !es[j].Failed?
  }

  lemma TrialStays(es: seq<Event>, recovery: real)
    requires es != []
    ensures var last, before := es[|es| - 1], es[..|es| - 1];
      TrialSince(es, recovery) <==>
        && !last.Failed?
        && (TrialSince(before, recovery) || (last.Call? && last.now - LastFailure(before) >= recovery))
  {
    var n := |es| - 1;
    var last, before := es[n], es[..n];
    forall k | 0 <= k < n
      ensures IsTrial(es, k, recovery) <==> IsTrial(before, k, recovery) && !last.Failed?
    {
      assert before[..k] == es[..k];
      assert forall j :: k < j < n ==> es[j] == before[j];
    }
    assert IsTrial(es, n, recovery) <==> last.Call? && last.now - LastFailure(before) >= recovery;
  }

  /** What the breaker is after any history, from the history alone. */
  lemma {:induction false} BreakerIs(threshold: int, recovery: real, es: seq<Event>)
    requires threshold >= 1
    ensures var b := ObserveAll(Breaker(threshold, recovery, 0, CLOSED, 0.0), es);
      && b.threshold == threshold && b.recovery == recovery && b.failures == FailureRun(es)
      && (FailureRun(es) < threshold ==> b.phase == CLOSED)
      && (FailureRun(es) >= threshold ==>
            b.openedAt == LastFailure(es) && b.phase == if TrialSince(es, recovery) then HALF_OPEN else OPEN)
  {
    hide TrialSince;
    if es != [] {
      BreakerIs(threshold, recovery, es[..|es| - 1]);
      TrialStays(es, recovery);
    }
  }

  /** After any history of a new breaker a call is let through exactly when the failures since the last success are
      fewer than the threshold, or the recovery time has passed since the latest failure, or a trial call has been let
      through since it. */
  lemma AllowedIff(threshold: int, recovery: real, es: seq<Event>, now: real)
    requires threshold >= 1
    ensures Allows(ObserveAll(Breaker(threshold, recovery, 0, CLOSED, 0.0), es), now) <==>
      || FailureRun(es) < threshold
      || now - LastFailure(es) >= recovery
      || TrialSince(es, recovery)
  {
    hide TrialSince, ObserveAll, FailureRun;
    BreakerIs(threshold, recovery, es);
  }

  // ---------------------------------------------------------------- retry

  datatype Attempt<V> = Ok(value: V) | Raised

  /** The first attempt that does not raise, or |outcomes| if all do. */
  function FirstOk<V>(outcomes: seq<Attempt<V>>): (i: nat)
    ensures i <= |outcomes|
    ensures forall j :: 0 <= j < i ==> outcomes[j].Raised?
    ensures i < |outcomes| ==> outcomes[i].Ok?
  {
    if outcomes == [] || outcomes[0].Ok? then 0 else 1 + FirstOk(outcomes[1..])
  }

  function Pow2(i: nat): nat { if i == 0 then 1 else 2 * Pow2(i - 1) }

  function Pause(baseDelay: real, i: nat): real { baseDelay * Pow2(i) as real }

  lemma PausesDouble(baseDelay: real)
    ensures Pause(baseDelay, 0) == baseDelay
    ensures forall i: nat :: i > 0 ==> Pause(baseDelay, i) == 2.0 * Pause(baseDelay, i - 1)
  {
  }

  /** Try until the first success, doubling the pause after each failure but the last.
      `outcomes[i]` is what the i-th call of the function would do; with no attempts at all nothing is called and the
      caller sees an exception all the same. */
  method Retry<V>(outcomes: seq<Attempt<V>>, baseDelay: real) returns (r: Attempt<V>, calls: nat, pauses: seq<real>)
    ensures calls == if FirstOk(outcomes) < |outcomes| then FirstOk(outcomes) + 1 else |outcomes|
    ensures r == if calls == 0 then Raised else outcomes[calls - 1]
    ensures |pauses| == (if calls == 0 then 0 else calls - 1)
    ensures forall i :: 0 <= i < |pauses| ==> pauses[i] == Pause(baseDelay, i)
    ensures |pauses| > 0 ==> pauses[0] == baseDelay
    ensures forall i :: 0 < i < |pauses| ==> pauses[i] == 2.0 * pauses[i - 1]
  {
    PausesDouble(baseDelay);
    hide Pause;
    pauses, calls, r := [], 0, Raised;
    for i := 0 to |outcomes|
      invariant calls == i && i <= FirstOk(outcomes)
      invariant |pauses| == if i < |outcomes| || i == 0 then i else i - 1
      invariant forall j :: 0 <= j < |pauses| ==> pauses[j] == Pause(baseDelay, j)
      invariant r == if i == 0 then Raised else outcomes[i - 1]
    {
      calls := calls + 1;
      r := outcomes[i];
      if r.Ok? {
        return;
      }
      if i < |outcomes| - 1 {
        pauses := pauses + [Pause(baseDelay, i)];
      }
    }
  }
}
