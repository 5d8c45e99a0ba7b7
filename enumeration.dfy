/**
 * Hash-map iteration visits every key exactly once, in an order the program
 * does not fix. Operations that iterate a map take that order as a parameter
 * constrained by `IsEnumeration`, so what they promise holds for every order.
 */
module Enumeration {
  /** `order` lists each key of `keys` exactly once and nothing else. */
  ghost predicate IsEnumeration<K(!new)>(order: seq<K>, keys: set<K>)
  {
    && (forall i, j :: 0 <= i < j < |order| ==> order[i] != order[j])
    && (forall k :: k in keys <==> k in order)
  }
}
