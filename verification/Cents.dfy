/** Exact decimal amounts measured in cents. A `real` stands for an exact decimal, so a
    whole number of cents is a real with no fractional part. */
module Cents {

  /** The nearest integer, ties away from zero. */
  function Round(x: real): (r: int)
    ensures r as real - 0.5 <= x <= r as real + 0.5
    ensures x - r as real == 0.5 ==> x < 0.0
    ensures r as real - x == 0.5 ==> x > 0.0
  {
    if x >= 0.0 then (x + 0.5).Floor else -(0.5 - x).Floor
  }

  /** `q2`: an amount rounded to the cent. */
  function Q2(x: real): real { Round(x) as real }

  predicate Whole(x: real) { x == x.Floor as real }

  lemma RoundUnique(x: real, n: int)
    requires n as real - 0.5 < x < n as real + 0.5
    ensures Round(x) == n
  {}

  /** Rounding is odd; the residuals of two chained figures cancel because of it. */
  lemma RoundOdd(x: real)
    ensures Round(-x) == -Round(x)
  {
    if x > 0.0 {
      assert 0.5 - (-x) == x + 0.5;
    }
  }

  lemma FloorUnique(x: real, n: int)
    requires n as real <= x < n as real + 1.0
    ensures x.Floor == n
  {}

  lemma WholeInt(n: int)
    ensures Whole(n as real)
  {}

  lemma WholeAdd(x: real, y: real)
    requires Whole(x) && Whole(y)
    ensures Whole(x + y) && Whole(x - y)
  {
    var m, n := x.Floor, y.Floor;
    assert x + y == (m + n) as real && x - y == (m - n) as real;
    FloorUnique((m + n) as real, m + n);
    FloorUnique((m - n) as real, m - n);
  }

  /** The sum of the first `n` amounts. */
  function SumTo(s: seq<real>, n: nat): real
    requires n <= |s|
  {
    if n == 0 then 0.0 else SumTo(s, n - 1) + s[n - 1]
  }

  function Sum(s: seq<real>): real { SumTo(s, |s|) }

  lemma {:induction false} SumToAgrees(s: seq<real>, t: seq<real>, n: nat)
    requires n <= |s| && n <= |t|
    requires forall i :: 0 <= i < n ==> s[i] == t[i]
    ensures SumTo(s, n) == SumTo(t, n)
  {
    if n > 0 { SumToAgrees(s, t, n - 1); }
  }

  lemma SumSnoc(s: seq<real>, x: real)
    ensures Sum(s + [x]) == Sum(s) + x
  {
    SumToAgrees(s + [x], s, |s|);
  }

  lemma {:induction false} SumToWhole(s: seq<real>, n: nat)
    requires n <= |s|
    requires forall i :: 0 <= i < n ==> Whole(s[i])
    ensures Whole(SumTo(s, n))
  {
    if n > 0 {
      SumToWhole(s, n - 1);
      WholeAdd(SumTo(s, n - 1), s[n - 1]);
    }
  }

  /** Changing one amount changes the sum by the difference. */
  lemma {:induction false} SumToUpdate(s: seq<real>, k: nat, x: real, n: nat)
    requires k < |s| && n <= |s|
    ensures SumTo(s[k := x], n) == SumTo(s, n) + (if k < n then x - s[k] else 0.0)
  {
    if n > 0 { SumToUpdate(s, k, x, n - 1); }
  }
}
