/** Keys in order, as a sorted map walks them. */
module Ordering {

  /** A strict total order. */
  ghost predicate TotalOrder<K(!new)>(before: (K, K) -> bool) {
    && (forall a :: !before(a, a))
    && (forall a, b :: a == b || before(a, b) || before(b, a))
    && (forall a, b, c :: before(a, b) && before(b, c) ==> before(a, c))
  }

  ghost predicate IsLeast<K(!new)>(keys: set<K>, before: (K, K) -> bool, k: K) {
    k in keys && forall j :: j in keys ==> j == k || before(k, j)
  }

  lemma LeastStep<K(!new)>(keys: set<K>, before: (K, K) -> bool, x: K, rest: K)
    requires TotalOrder(before) && IsLeast(keys, before, rest)
    ensures IsLeast(keys + {x}, before, if before(x, rest) then x else rest)
  {
    var k := if before(x, rest) then x else rest;
    forall j | j in keys + {x} ensures j == k || before(k, j) {
      if j != x && before(x, rest) { assert j == rest || before(rest, j); }
    }
  }

  lemma LeastUnique<K(!new)>(keys: set<K>, before: (K, K) -> bool, j: K, k: K)
    requires TotalOrder(before) && IsLeast(keys, before, j) && IsLeast(keys, before, k)
    ensures j == k
  {}

  ghost function Least<K(!new)>(keys: set<K>, before: (K, K) -> bool): (k: K)
    requires TotalOrder(before) && keys != {}
    ensures IsLeast(keys, before, k)
    decreases |keys|
  {
    var x :| x in keys;
    if keys - {x} == {} then
      assert keys == {x};
      x
    else
      var rest := Least(keys - {x}, before);
      LeastStep(keys - {x}, before, x, rest);
      assert keys - {x} + {x} == keys;
      if before(x, rest) then x else rest
  }

  /** The keys from the least on. */
  ghost function Sorted<K(!new)>(keys: set<K>, before: (K, K) -> bool): (s: seq<K>)
    requires TotalOrder(before)
    ensures forall k :: k in s <==> k in keys
    ensures forall i, j :: 0 <= i < j < |s| ==> s[i] != s[j] && before(s[i], s[j])
    decreases |keys|
  {
    if keys == {} then []
    else [Least(keys, before)] + Sorted(keys - {Least(keys, before)}, before)
  }

  method FindLeast<K(==, !new)>(keys: set<K>, before: (K, K) -> bool) returns (k: K)
    requires TotalOrder(before) && keys != {}
    ensures k == Least(keys, before)
  {
    k :| k in keys;
    var seen, todo := {k}, keys - {k};
    while todo != {}
      invariant seen + todo == keys && IsLeast(seen, before, k)
      decreases |todo|
    {
      var x :| x in todo;
      LeastStep(seen, before, x, k);
      if before(x, k) { k := x; }
      seen, todo := seen + {x}, todo - {x};
    }
    LeastUnique(keys, before, k, Least(keys, before));
  }

  lemma SortedFrom<K(!new)>(keys: set<K>, before: (K, K) -> bool)
    requires TotalOrder(before) && keys != {}
    ensures Sorted(keys, before) == [Least(keys, before)] + Sorted(keys - {Least(keys, before)}, before)
  {}

  method Sort<K(==, !new)>(keys: set<K>, before: (K, K) -> bool) returns (s: seq<K>)
    requires TotalOrder(before)
    ensures s == Sorted(keys, before)
  {
    s := [];
    var todo := keys;
    while todo != {}
      invariant s + Sorted(todo, before) == Sorted(keys, before)
      decreases |todo|
    {
      var k := FindLeast(todo, before);
      SortedFrom(todo, before);
      Regroup(s, k, Sorted(todo - {k}, before));
      s := s + [k];
      todo := todo - {k};
    }
  }

  lemma Regroup<K>(s: seq<K>, k: K, rest: seq<K>)
    ensures s + ([k] + rest) == (s + [k]) + rest
  {}
}
