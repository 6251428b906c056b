/** What every proposal is measured by: the smallest trade worth making, and the room one name has. */
module Sizing {
  import opened Basics

  const MIN_TRADE := 250.0

  type AssetClass = string

  /** The most one name may take before its share of the book reaches the cap. */
  function NameRoom(nav: real, weight: real, cap: real): real { nav * Max(0.0, cap - weight) }

  lemma ClippedProduct(x: real, y: real)
    ensures x * Max(0.0, y) == if y >= 0.0 then x * y else 0.0
    ensures x >= 0.0 && y < 0.0 ==> x * y <= 0.0
  {
  }
}
