/** The simulation never looks ahead: a state depends only on closes and targets already in the past. */
module Causality {
  import opened Basics
  import opened Simulator

  /** The two histories quote the same closes on each of the first n days. */
  ghost predicate SamePast(a: Closes, b: Closes, n: nat) {
    forall i: nat :: i < n ==> QuotesOn(a, i) == QuotesOn(b, i)
  }

  ghost predicate SameTargets(a: seq<Target>, b: seq<Target>, n: nat) {
    n <= |a| && n <= |b| && a[..n] == b[..n]
  }

  /** The state after n days is fixed by n days of closes and the targets of the first n - 1 of them. */
  lemma {:induction false} StateIsCausal(a: Closes, b: Closes, at: seq<Target>, bt: seq<Target>, t: Terms, n: nat)
    requires Covers(a, at) && Covers(b, bt) && n <= |at| && n <= |bt|
    requires SamePast(a, b, n) && SameTargets(at, bt, if n == 0 then 0 else n - 1)
    ensures After(a, at, t, n) == After(b, bt, t, n)
  {
    if n > 0 {
      hide Rebalance;
      if n > 1 {
        assert at[..n - 2] == at[..n - 1][..n - 2] && bt[..n - 2] == bt[..n - 1][..n - 2];
        assert at[..n - 1][n - 2] == bt[..n - 1][n - 2];
      }
      StateIsCausal(a, b, at, bt, t, n - 1);
      assert QuotesOn(a, n - 1) == QuotesOn(b, n - 1);
      WantIsListed(a, at, n - 1);
      WantIsListed(b, bt, n - 1);
    }
  }

  /** A day's value depends on targets only up to two days before it. */
  lemma ValueIsCausal(a: Closes, b: Closes, at: seq<Target>, bt: seq<Target>, t: Terms, day: nat)
    requires Covers(a, at) && Covers(b, bt) && day < |at| && day < |bt|
    requires SamePast(a, b, day + 1) && SameTargets(at, bt, if day == 0 then 0 else day - 1)
    ensures ValueOn(a, at, t, day) == ValueOn(b, bt, t, day)
  {
    StateIsCausal(a, b, at, bt, t, day);
    assert QuotesOn(a, day) == QuotesOn(b, day);
  }
}
