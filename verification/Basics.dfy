/** Small shared vocabulary: options, real arithmetic and duplicate-free sequences. */
module Basics {
  datatype Option<+T> = None | Some(value: T)

  type Ticker = string

  /** A closing price.  The histories the engines receive hold strictly positive closes. */
  type Price = x: real | x > 0.0 witness 1.0

  function Min(a: real, b: real): real { if a <= b then a else b }
  function Max(a: real, b: real): real { if a >= b then a else b }
  function Abs(a: real): real { if a < 0.0 then -a else a }

  /** What a number of shares comes to at a price. */
  function Worth(shares: real, price: real): real { shares * price }

  function Times(k: int, x: real): real { k as real * x }

  lemma TimesStep(k: int, x: real)
    ensures Times(k + 1, x) == Times(k, x) + x && Times(0, x) == 0.0
    ensures k >= 0 && x >= 0.0 ==> Times(k, x) >= 0.0
    ensures k <= 0 && x >= 0.0 ==> Times(k, x) <= 0.0
  {
  }

  ghost predicate NoDup<T>(s: seq<T>) {
    forall i, j :: 0 <= i < j < |s| ==> s[i] != s[j]
  }

  /** The sequence with every occurrence of x taken out; order is otherwise kept. */
  function Without<T(==, !new)>(s: seq<T>, x: T): (r: seq<T>)
    ensures forall y :: y in r <==> y in s && y != x
    ensures NoDup(s) ==> NoDup(r)
  {
    if s == [] then []
    else if s[0] == x then Without(s[1..], x)
    else
      var rest := Without(s[1..], x);
      assert NoDup(s) ==> NoDup(s[1..]) && s[0] !in s[1..];
      [s[0]] + rest
  }
}
