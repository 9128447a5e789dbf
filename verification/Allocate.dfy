/** Largest-remainder allocation to the cent (`allocate`). */
module Allocate {
  import opened Cents

  /** What `int()` does to a decimal: truncation toward zero. */
  function Truncate(x: real): int { if x >= 0.0 then x.Floor else -(-x).Floor }

  /** Each part's exact share of `total`, in proportion; equal shares when the parts net to nothing. */
  function RawShares(parts: seq<real>, total: real): (raw: seq<real>)
    ensures |raw| == |parts|
  {
    var base := Sum(parts);
    if base == 0.0 then seq(|parts|, i requires 0 <= i < |parts| => total / |parts| as real)
    else seq(|parts|, i requires 0 <= i < |parts| => parts[i] / base * total)
  }

  function Floors(raw: seq<real>): (fl: seq<real>)
    ensures |fl| == |raw|
  {
    seq(|raw|, i requires 0 <= i < |raw| => raw[i].Floor as real)
  }

  function Fraction(x: real): (r: real)
    ensures 0.0 <= r < 1.0
  {
    x - x.Floor as real
  }

  /** The sort key: the larger fraction first, the earlier index on a tie. */
  predicate Before(raw: seq<real>, i: nat, j: nat)
    requires i < |raw| && j < |raw|
  {
    Fraction(raw[i]) > Fraction(raw[j]) || (Fraction(raw[i]) == Fraction(raw[j]) && i < j)
  }

  predicate Ordered(raw: seq<real>, order: seq<nat>)
  {
    && (forall a :: 0 <= a < |order| ==> order[a] < |raw|)
    && (forall a, b :: 0 <= a < b < |order| ==> Before(raw, order[a], order[b]))
  }

  function Insert(raw: seq<real>, order: seq<nat>, k: nat): (r: seq<nat>)
    requires k < |raw| && Ordered(raw, order) && k !in order
    ensures Ordered(raw, r) && |r| == |order| + 1
    ensures forall x :: x in r <==> x in order || x == k
  {
    if order == [] then [k]
    else if Before(raw, k, order[0]) then
      assert forall a :: 0 < a < |order| ==> Before(raw, order[0], order[a]);
      [k] + order
    else
      var tail := Insert(raw, order[1..], k);
      assert forall a :: 0 < a < |order| ==> Before(raw, order[0], order[a]);
      assert forall x :: x in tail ==> Before(raw, order[0], x);
      [order[0]] + tail
  }

  /** The first `n` indices in sort order. */
  function OrderTo(raw: seq<real>, n: nat): (order: seq<nat>)
    requires n <= |raw|
    ensures Ordered(raw, order) && |order| == n
    ensures forall i: nat :: i in order <==> i < n
  {
    if n == 0 then [] else Insert(raw, OrderTo(raw, n - 1), n - 1)
  }

  function Order(raw: seq<real>): seq<nat> { OrderTo(raw, |raw|) }

  /** `m % n`, by subtraction. */
  function Wrap(m: nat, n: nat): (r: nat)
    requires n > 0
    ensures r < n && (m < n ==> r == m)
  {
    if m < n then m else Wrap(m - n, n)
  }

  /** The part the `m`-th round reaches, going round the sort order. */
  function Nth(order: seq<nat>, m: nat): (k: nat)
    requires order != []
    ensures k in order
  {
    order[Wrap(m, |order|)]
  }

  /** The same, going round the sort order from its end. */
  function NthLast(order: seq<nat>, m: nat): (k: nat)
    requires order != []
    ensures k in order
  {
    order[|order| - 1 - Wrap(m, |order|)]
  }

  /** `m` rounds of one cent each, in sort order. */
  function Given(cents: seq<real>, order: seq<nat>, m: nat): (r: seq<real>)
    requires order != [] && forall k :: k in order ==> k < |cents|
    ensures |r| == |cents|
  {
    if m == 0 then cents
    else
      var before, at := Given(cents, order, m - 1), Nth(order, m - 1);
      before[at := before[at] + 1.0]
  }

  /** `m` rounds of one cent back each, in reverse sort order. */
  function Taken(cents: seq<real>, order: seq<nat>, m: nat): (r: seq<real>)
    requires order != [] && forall k :: k in order ==> k < |cents|
    ensures |r| == |cents|
  {
    if m == 0 then cents
    else
      var before, at := Taken(cents, order, m - 1), NthLast(order, m - 1);
      before[at := before[at] - 1.0]
  }

  /** What is left to hand out after flooring every share. */
  function Remainder(parts: seq<real>, total: real): int
  {
    Truncate(total) - Truncate(Sum(Floors(RawShares(parts, total))))
  }

  /** Largest-remainder allocation of `total` in proportion to `parts`. */
  function Allocation(parts: seq<real>, total: real): (r: seq<real>)
    ensures |r| == |parts|
  {
    if parts == [] then []
    else
      var raw := RawShares(parts, total);
      var rem := Remainder(parts, total);
      if rem >= 0 then Given(Floors(raw), Order(raw), rem) else Taken(Floors(raw), Order(raw), -rem)
  }

  /** The first loop: hand out `n` cents, largest fraction first. */
  method HandOut(floors: seq<real>, order: seq<nat>, n: nat) returns (cents: seq<real>)
    requires order != [] && forall k :: k in order ==> k < |floors|
    ensures cents == Given(floors, order, n)
  {
    cents := floors;
    for i := 0 to n
      invariant cents == Given(floors, order, i)
    {
      var at := Nth(order, i);
      cents := cents[at := cents[at] + 1.0];
    }
  }

  /** The second loop: take `n` cents back, smallest fraction first. */
  method TakeBack(floors: seq<real>, order: seq<nat>, n: nat) returns (cents: seq<real>)
    requires order != [] && forall k :: k in order ==> k < |floors|
    ensures cents == Taken(floors, order, n)
  {
    cents := floors;
    for i := 0 to n
      invariant cents == Taken(floors, order, i)
    {
      var at := NthLast(order, i);
      cents := cents[at := cents[at] - 1.0];
    }
  }

  /** `allocate`: floor every share, then settle the remainder a cent at a time. */
  method Run(parts: seq<real>, total: real) returns (cents: seq<real>)
    ensures cents == Allocation(parts, total)
  {
    if parts == [] { return []; }
    var raw := RawShares(parts, total);
    cents := Floors(raw);
    var remainder := Truncate(total) - Truncate(Sum(cents));
    assert remainder == Remainder(parts, total);
    if remainder >= 0 {
      cents := HandOut(cents, Order(raw), remainder);
    } else {
      cents := TakeBack(cents, Order(raw), -remainder);
    }
  }

  // ---- What an allocation guarantees ----

  lemma MulDiv(p: real, base: real, total: real)
    requires base != 0.0
    ensures p / base * total == total / base * p
  {}

  lemma {:induction false} SumToScaled(s: seq<real>, t: seq<real>, c: real, n: nat)
    requires n <= |s| == |t|
    requires forall i :: 0 <= i < n ==> t[i] == c * s[i]
    ensures SumTo(t, n) == c * SumTo(s, n)
  {
    if n > 0 { SumToScaled(s, t, c, n - 1); }
  }

  lemma {:induction false} SumToConstant(s: seq<real>, c: real, n: nat)
    requires n <= |s|
    requires forall i :: 0 <= i < n ==> s[i] == c
    ensures SumTo(s, n) == n as real * c
  {
    if n > 0 { SumToConstant(s, c, n - 1); }
  }

  /** The exact shares add up to the total. */
  lemma RawSum(parts: seq<real>, total: real)
    requires parts != []
    ensures Sum(RawShares(parts, total)) == total
  {
    var base, raw := Sum(parts), RawShares(parts, total);
    if base == 0.0 {
      SumToConstant(raw, total / |parts| as real, |raw|);
    } else {
      forall i | 0 <= i < |raw| ensures raw[i] == total / base * parts[i] {
        MulDiv(parts[i], base, total);
      }
      SumToScaled(parts, raw, total / base, |raw|);
    }
  }

  function Positive(raw: seq<real>, n: nat): (s: set<nat>)
    requires n <= |raw|
    ensures forall k: nat :: k in s <==> k < n && Fraction(raw[k]) > 0.0
  {
    set k: nat | 0 <= k < n && Fraction(raw[k]) > 0.0
  }

  /** What flooring drops is less than one cent for each share with a fraction. */
  lemma {:induction false} FractionSum(raw: seq<real>, n: nat)
    requires n <= |raw|
    ensures 0.0 <= SumTo(raw, n) - SumTo(Floors(raw), n) <= |Positive(raw, n)| as real
    ensures Positive(raw, n) != {} ==> SumTo(raw, n) - SumTo(Floors(raw), n) < |Positive(raw, n)| as real
    ensures |Positive(raw, n)| <= n
  {
    if n > 0 {
      FractionSum(raw, n - 1);
      if Fraction(raw[n - 1]) > 0.0 {
        assert Positive(raw, n) == Positive(raw, n - 1) + {n - 1};
      } else {
        assert Positive(raw, n) == Positive(raw, n - 1);
      }
    }
  }

  lemma SumFloorsWhole(raw: seq<real>)
    ensures Whole(Sum(Floors(raw)))
  {
    SumToWhole(Floors(raw), |raw|);
  }

  /** The second loop is never entered, and the first hands out at most one cent a part. */
  lemma RemainderBounds(parts: seq<real>, total: real)
    requires parts != []
    ensures 0 <= Remainder(parts, total) <= |parts|
    ensures Whole(total) ==>
      && Remainder(parts, total) < |parts|
      && Remainder(parts, total) as real == total - Sum(Floors(RawShares(parts, total)))
      && Remainder(parts, total) <= |Positive(RawShares(parts, total), |parts|)|
      && (Remainder(parts, total) > 0 ==> Remainder(parts, total) < |Positive(RawShares(parts, total), |parts|)|)
  {
    var raw := RawShares(parts, total);
    RawSum(parts, total);
    FractionSum(raw, |raw|);
    SumFloorsWhole(raw);
    var floors := Sum(Floors(raw)).Floor;
    assert Truncate(floors as real) == floors;
    if Whole(total) {
      assert Truncate(total) == total.Floor;
    }
  }

  /** Half a cent below nothing leaves a whole cent to hand out, as many as there are parts. */
  lemma RemainderReached()
    ensures Remainder([1.0], -0.5) == 1
  {
    assert Sum([1.0]) == 1.0 by { assert SumTo([1.0], 0) == 0.0; }
    assert RawShares([1.0], -0.5) == [-0.5];
    assert Floors([-0.5]) == [-1.0];
    assert Sum([-1.0]) == -1.0 by { assert SumTo([-1.0], 0) == 0.0; }
  }

  lemma {:induction false} GivenSum(cents: seq<real>, order: seq<nat>, m: nat)
    requires order != [] && forall k :: k in order ==> k < |cents|
    ensures Sum(Given(cents, order, m)) == Sum(cents) + m as real
  {
    if m > 0 {
      GivenSum(cents, order, m - 1);
      var before, at := Given(cents, order, m - 1), Nth(order, m - 1);
      SumToUpdate(before, at, before[at] + 1.0, |before|);
    }
  }

  predicate Distinct(order: seq<nat>) {
    forall a, b :: 0 <= a < b < |order| ==> order[a] != order[b]
  }

  lemma OrderDistinct(raw: seq<real>)
    ensures Distinct(Order(raw))
  {
    var order := Order(raw);
    forall a, b | 0 <= a < b < |order| ensures order[a] != order[b] {
      assert Before(raw, order[a], order[b]);
    }
  }

  /** One trip round the sort order gives a cent to exactly the parts it passes. */
  lemma {:induction false} GivenAt(cents: seq<real>, order: seq<nat>, m: nat, k: nat)
    requires order != [] && (forall j :: j in order ==> j < |cents|) && Distinct(order)
    requires m <= |order| && k < |cents|
    ensures Given(cents, order, m)[k] == cents[k] + (if k in order[..m] then 1.0 else 0.0)
  {
    if m > 0 {
      GivenAt(cents, order, m - 1, k);
      assert order[..m] == order[..m - 1] + [order[m - 1]];
      assert Nth(order, m - 1) == order[m - 1];
      assert order[m - 1] !in order[..m - 1];
    }
  }

  /** Only parts with a fraction of a cent are rounded up. */
  lemma GivenHaveFractions(raw: seq<real>, m: nat, a: nat)
    requires m < |Positive(raw, |raw|)| && a < m <= |raw|
    ensures Fraction(raw[Order(raw)[a]]) > 0.0
  {
    var order := Order(raw);
    if Fraction(raw[order[a]]) == 0.0 {
      var front := set b | 0 <= b < a :: order[b];
      forall k | k in Positive(raw, |raw|) ensures k in front {
        assert k in order;
        var b :| 0 <= b < |order| && order[b] == k;
      }
      FrontSize(order, a, front);
      Cardinality(Positive(raw, |raw|), front);
    }
  }

  lemma Cardinality(s: set<nat>, t: set<nat>)
    requires s <= t
    ensures |s| <= |t|
  {
    assert t == s + (t - s);
  }

  lemma {:induction false} FrontSize(order: seq<nat>, a: nat, front: set<nat>)
    requires a <= |order| && front == set b | 0 <= b < a :: order[b]
    ensures |front| <= a
  {
    if a > 0 {
      var less := set b | 0 <= b < a - 1 :: order[b];
      FrontSize(order, a - 1, less);
      assert front == less + {order[a - 1]};
    }
  }

  /** An allocation adds up to the total, to the cent, exactly when the total is whole cents. */
  lemma AllocationSum(parts: seq<real>, total: real)
    requires parts != []
    ensures Sum(Allocation(parts, total)) == Truncate(total) as real
    ensures Sum(Allocation(parts, total)) == total <==> Whole(total)
  {
    RemainderBounds(parts, total);
    var floors := Floors(RawShares(parts, total));
    SumFloorsWhole(RawShares(parts, total));
    TruncateWhole(Sum(floors));
    TruncateWhole(total);
    GivenSum(floors, Order(RawShares(parts, total)), Remainder(parts, total));
  }

  lemma TruncateWhole(x: real)
    ensures Truncate(x) as real == x <==> Whole(x)
  {
    if x < 0.0 && Whole(x) {
      FloorUnique(-x, -x.Floor);
    }
    if Truncate(x) as real == x {
      WholeInt(Truncate(x));
    }
  }

  /** A part's share is floored, or raised to the next cent when it has a fraction and its turn comes. */
  lemma AllocationAt(parts: seq<real>, total: real, k: nat)
    requires k < |parts| && Whole(total)
    ensures var raw := RawShares(parts, total); var m := Remainder(parts, total);
      0 <= m <= |Order(raw)| &&
      Allocation(parts, total)[k] == raw[k].Floor as real + (if k in Order(raw)[..m] then 1.0 else 0.0) &&
      (k in Order(raw)[..m] ==> Fraction(raw[k]) > 0.0)
  {
    var raw, m := RawShares(parts, total), Remainder(parts, total);
    RemainderBounds(parts, total);
    OrderDistinct(raw);
    GivenAt(Floors(raw), Order(raw), m, k);
    if k in Order(raw)[..m] {
      var a :| 0 <= a < m && Order(raw)[a] == k;
      GivenHaveFractions(raw, m, a);
    }
  }

  /** Each part is less than a cent from its share. */
  lemma NearRawShare(parts: seq<real>, total: real, k: nat)
    requires k < |parts| && Whole(total)
    ensures -1.0 < Allocation(parts, total)[k] - RawShares(parts, total)[k] < 1.0
    ensures Whole(Allocation(parts, total)[k])
  {
    AllocationAt(parts, total, k);
    var x := RawShares(parts, total)[k].Floor;
    WholeInt(x);
    WholeInt(x + 1);
  }

  /** Its share is in proportion to what it was, or the same for all when the parts net to nothing. */
  function Share(part: real, parts: real, total: real, count: nat): real
    requires count > 0
  {
    if parts == 0.0 then total / count as real else part / parts * total
  }

  lemma RawIsShare(parts: seq<real>, total: real, k: nat)
    requires k < |parts|
    ensures RawShares(parts, total)[k] == Share(parts[k], Sum(parts), total, |parts|)
  {}

  lemma StaysNear(x: real, raw: real, share: real)
    requires -1.0 < x - raw < 1.0 && raw == share
    ensures -1.0 < x - share < 1.0
  {}

  /** Every part is whole cents and less than a cent from its share. */
  lemma AllocationNearShare(parts: seq<real>, total: real, k: nat)
    requires k < |parts| && Whole(total)
    ensures -1.0 < Allocation(parts, total)[k] - Share(parts[k], Sum(parts), total, |parts|) < 1.0
    ensures Whole(Allocation(parts, total)[k])
  {
    NearRawShare(parts, total, k);
    RawIsShare(parts, total, k);
    StaysNear(Allocation(parts, total)[k], RawShares(parts, total)[k], Share(parts[k], Sum(parts), total, |parts|));
  }

  lemma ZeroShare(parts: seq<real>, total: real, k: nat)
    requires k < |parts| && Sum(parts) != 0.0 && parts[k] == 0.0
    ensures RawShares(parts, total)[k] == 0.0
  {
    MulDiv(0.0, Sum(parts), total);
  }

  lemma ZeroFraction(x: real)
    requires x == 0.0
    ensures x.Floor as real == 0.0 && Fraction(x) == 0.0
  {}

  /** A zero part gets nothing. */
  lemma AllocationKeepsZero(parts: seq<real>, total: real, k: nat)
    requires k < |parts| && Whole(total) && Sum(parts) != 0.0 && parts[k] == 0.0
    ensures Allocation(parts, total)[k] == 0.0
  {
    AllocationAt(parts, total, k);
    ZeroShare(parts, total, k);
    ZeroFraction(RawShares(parts, total)[k]);
  }

  /** Shares keep the parts' order, or are all zero. */
  lemma SharesMonotone(parts: seq<real>, total: real, i: nat, j: nat)
    requires i < |parts| && j < |parts|
    requires Sum(parts) != 0.0 && total / Sum(parts) >= 0.0 && parts[i] > parts[j]
    ensures var raw := RawShares(parts, total);
      raw[i] > raw[j] || raw[i] == raw[j] == 0.0
  {
    var c := total / Sum(parts);
    MulDiv(parts[i], Sum(parts), total);
    MulDiv(parts[j], Sum(parts), total);
    if c == 0.0 {
      assert c * parts[i] == c * parts[j] == 0.0;
    } else {
      assert c * (parts[i] - parts[j]) > 0.0;
    }
  }

  lemma FloorMonotone(x: real, y: real)
    requires x > y
    ensures x.Floor >= y.Floor
    ensures x.Floor == y.Floor ==> Fraction(x) > Fraction(y)
  {}

  /** A strictly larger part never gets less, when both totals have the same sign. */
  lemma AllocationMonotone(parts: seq<real>, total: real, i: nat, j: nat)
    requires i < |parts| && j < |parts| && Whole(total)
    requires Sum(parts) != 0.0 && total / Sum(parts) >= 0.0 && parts[i] > parts[j]
    ensures Allocation(parts, total)[i] >= Allocation(parts, total)[j]
  {
    var raw, m := RawShares(parts, total), Remainder(parts, total);
    SharesMonotone(parts, total, i, j);
    AllocationAt(parts, total, i);
    AllocationAt(parts, total, j);
    if raw[i] > raw[j] {
      FloorMonotone(raw[i], raw[j]);
      if raw[i].Floor == raw[j].Floor && j in Order(raw)[..m] {
        EarlierToo(raw, m, i, j);
      }
    }
  }

  /** Every part is its share floored or a cent more, and the cents go to the largest fractions of a cent, to the
      earlier of two as large. */
  lemma LargestRemainder(parts: seq<real>, total: real, i: nat, j: nat)
    requires i < |parts| && j < |parts| && i != j && Whole(total)
    ensures var x := Share(parts[i], Sum(parts), total, |parts|);
            var y := Share(parts[j], Sum(parts), total, |parts|);
            var fx, fy := x - x.Floor as real, y - y.Floor as real;
            var a, c := Allocation(parts, total)[i], Allocation(parts, total)[j];
            && (a == x.Floor as real || a == x.Floor as real + 1.0)
            && (c != y.Floor as real && (fx > fy || (fx == fy && i < j)) ==> a == x.Floor as real + 1.0)
  {
    var raw, m := RawShares(parts, total), Remainder(parts, total);
    RawIsShare(parts, total, i);
    RawIsShare(parts, total, j);
    AllocationAt(parts, total, i);
    AllocationAt(parts, total, j);
    if j in Order(raw)[..m] && Before(raw, i, j) { EarlierToo(raw, m, i, j); }
  }

  /** Whoever comes before a part that gets a cent gets one too. */
  lemma EarlierToo(raw: seq<real>, m: nat, i: nat, j: nat)
    requires i < |raw| && j < |raw| && m <= |raw| && Before(raw, i, j) && j in Order(raw)[..m]
    ensures i in Order(raw)[..m]
  {
    var order := Order(raw);
    var b :| 0 <= b < m && order[b] == j;
    assert i in order;
    var a :| 0 <= a < |order| && order[a] == i;
    assert a <= b;
    assert order[..m][a] == i;
  }
}
