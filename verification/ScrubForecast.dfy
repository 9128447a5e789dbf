/** A line document's new figures, worked out from the original and the factor alone: what can be
    known before a run. */
module ScrubForecast {
  import opened Cents
  import opened Wrappers
  import opened FixtureBook
  import opened FixtureRules
  import opened ScrubSpec

  function ItemNew(b: Book, before: Amounts, amount: Field, price: Field, qty: Option<real>, f: real): real {
    if amount !in before then 0.0
    else if Priced(before, amount, price, qty) then
      Reprice(qty.value, before[amount], before[price], PriceStep(b, price), f).1
    else Scaled(before[amount], f)
  }

  function SubsNew(b: Book, before: Amounts, k: Key, i: nat, f: real): (s: seq<real>)
    requires i < |b.Lines(k)|
    ensures |s| == |b.Lines(k)[i].subs|
  {
    seq(|b.Lines(k)[i].subs|, j requires 0 <= j < |b.Lines(k)[i].subs| =>
      ItemNew(b, before, SubAmount(k, i, j), SubPrice(k, i, j), b.Lines(k)[i].subs[j].qty, f))
  }

  /** A figure that follows a formula, or nothing where there is none. */
  function DerivedNew(before: Amounts, fld: Field, newFormula: real, oldFormula: real, f: real): real {
    if fld in before then Derived(before[fld], newFormula, oldFormula, f) else 0.0
  }

  function LeafNew(before: Amounts, fld: Field, f: real): real { if fld in before then Scaled(before[fld], f) else 0.0 }

  /** The amount of a group or item line. */
  function LineNew(b: Book, before: Amounts, k: Key, i: nat, f: real): real
    requires i < |b.Lines(k)|
  {
    var line := b.Lines(k)[i];
    if line.detail.Group? then
      DerivedNew(before, LineAmount(k, i), Sum(SubsNew(b, before, k, i, f)), Sum(SubValues(b, before, k, i)), f)
    else ItemNew(b, before, LineAmount(k, i), LinePrice(k, i), line.qty, f)
  }

  /** What the scrubber counts for it. */
  function CountedNew(b: Book, before: Amounts, k: Key, i: nat, f: real): real
    requires i < |b.Lines(k)|
  {
    if b.Lines(k)[i].detail.Group? && LineAmount(k, i) !in before then Sum(SubsNew(b, before, k, i, f))
    else LineNew(b, before, k, i, f)
  }

  /** The leaves as the rules add them up. */
  function LeavesNew(b: Book, before: Amounts, k: Key, f: real): (s: seq<real>)
    ensures |s| == |b.Lines(k)|
  {
    seq(|b.Lines(k)|, i requires 0 <= i < |b.Lines(k)| =>
      if IsLeaf(b.Lines(k)[i]) then LineNew(b, before, k, i, f) else 0.0)
  }

  /** The leaves as the scrubber adds them up. */
  function CountedLeavesNew(b: Book, before: Amounts, k: Key, f: real): (s: seq<real>)
    ensures |s| == |b.Lines(k)|
  {
    seq(|b.Lines(k)|, i requires 0 <= i < |b.Lines(k)| =>
      if IsLeaf(b.Lines(k)[i]) then CountedNew(b, before, k, i, f) else 0.0)
  }

  function TaxableNew(b: Book, before: Amounts, k: Key, f: real): (s: seq<real>)
    ensures |s| == |b.Lines(k)|
  {
    seq(|b.Lines(k)|, i requires 0 <= i < |b.Lines(k)| =>
      if IsLeaf(b.Lines(k)[i]) && b.Lines(k)[i].isTaxable then CountedNew(b, before, k, i, f) else 0.0)
  }

  /** The taxable leaves as the rules add them up. */
  function TaxableLeavesNew(b: Book, before: Amounts, k: Key, f: real): (s: seq<real>)
    ensures |s| == |b.Lines(k)|
  {
    seq(|b.Lines(k)|, i requires 0 <= i < |b.Lines(k)| =>
      if IsLeaf(b.Lines(k)[i]) && b.Lines(k)[i].isTaxable then LineNew(b, before, k, i, f) else 0.0)
  }

  function DiscountNew(b: Book, before: Amounts, k: Key, i: nat, f: real): real
    requires i < |b.Lines(k)|
  {
    var percent := b.Lines(k)[i].percent;
    if percent.Some? then
      DerivedNew(before, LineAmount(k, i), PercentOf(Sum(CountedLeavesNew(b, before, k, f)), percent.value),
                 PercentOf(LeafSum(b, before, k), percent.value), f)
    else LeafNew(before, LineAmount(k, i), f)
  }

  function DiscountsNew(b: Book, before: Amounts, k: Key, f: real): (s: seq<real>)
    ensures |s| == |b.Lines(k)|
  {
    seq(|b.Lines(k)|, i requires 0 <= i < |b.Lines(k)| =>
      if b.Lines(k)[i].detail.Discount? then DiscountNew(b, before, k, i, f) else 0.0)
  }

  function TaxBaseNew(b: Book, before: Amounts, k: Key, i: nat, f: real): real {
    DerivedNew(before, TaxBase(k, i), Sum(TaxableNew(b, before, k, f)), TaxableSum(b, before, k), f)
  }

  function TaxLineNew(b: Book, before: Amounts, k: Key, i: nat, f: real): real
    requires i < |b.TaxLines(k)|
  {
    var percent := b.TaxLines(k)[i].percent;
    if TaxBase(k, i) in before && percent.Some? then
      DerivedNew(before, TaxAmount(k, i), PercentOf(TaxBaseNew(b, before, k, i, f), percent.value),
          PercentOf(before[TaxBase(k, i)], percent.value), f)
    else LeafNew(before, TaxAmount(k, i), f)
  }

  function TaxesNew(b: Book, before: Amounts, k: Key, f: real): (s: seq<real>)
    ensures |s| == |b.TaxLines(k)|
  {
    seq(|b.TaxLines(k)|, i requires 0 <= i < |b.TaxLines(k)| => TaxLineNew(b, before, k, i, f))
  }

  /** The tax in the scrubber's formula for the new total. */
  function TaxNew(b: Book, before: Amounts, k: Key, f: real): real {
    if k !in b.entities || b.entities[k].tax.None? || b.entities[k].taxInclusive then 0.0
    else if TotalTax(k) in before then
      Derived(before[TotalTax(k)], Sum(TaxesNew(b, before, k, f)), Sum(TaxValues(b, before, k)), f)
    else Sum(TaxesNew(b, before, k, f))
  }

  /** The part of it the checker leaves out: all of it where no total of the tax is stated. */
  function UncheckedTaxNew(b: Book, before: Amounts, k: Key, f: real): real {
    if k in b.entities && TotalTax(k) !in before then TaxNew(b, before, k, f) else 0.0
  }

  function TotalNew(b: Book, before: Amounts, k: Key, f: real): real {
    DerivedNew(before, Head(k, TotalAmt),
      Sum(CountedLeavesNew(b, before, k, f)) - Sum(DiscountsNew(b, before, k, f)) + TaxNew(b, before, k, f),
      TotalFormula(b, before, k), f)
  }

  /** What the document will leave to be paid or used before applications. */
  function BaseNew(b: Book, before: Amounts, k: Key, f: real): real {
    TotalNew(b, before, k, f) - LeafNew(before, Head(k, DepositPaid), f)
  }

  /** What will be applied to a document. */
  function AppliedForecast(b: Book, before: Amounts, k: Key, f: real): real {
    AppliedNew(Applied(b, before, k), Base(before, k), BaseNew(b, before, k, f), f)
  }

  function BalanceNew(b: Book, before: Amounts, k: Key, f: real): real {
    DerivedNew(before, Head(k, Balance), BaseNew(b, before, k, f) - AppliedForecast(b, before, k, f),
      Base(before, k) - Applied(b, before, k), f)
  }

  // ---- What the scrubber adds up beyond the rules ----

  /** An amount scaled and rounded as one. */
  function AsOne(amount: real, f: real): real { Q2(amount * f) }

  /** Groups without an amount of their own: the scrubber counts their sub-lines, the rules nothing. */
  function LeafGap(b: Book, am: Amounts, k: Key): real { LeafSum(b, am, k) - Sum(LeafValues(b, am, k)) }

  function LeafGapNew(b: Book, before: Amounts, k: Key, f: real): real {
    Sum(CountedLeavesNew(b, before, k, f)) - Sum(LeavesNew(b, before, k, f))
  }

  /** The leaves from line `i` on, and the groups above. */
  function LaterLeaves(b: Book, am: Amounts, k: Key, i: nat): real
    requires i <= |b.Lines(k)|
  {
    LeafSum(b, am, k) - SumTo(LeafValues(b, am, k), i)
  }

  function LaterLeavesNew(b: Book, before: Amounts, k: Key, i: nat, f: real): real
    requires i <= |b.Lines(k)|
  {
    Sum(CountedLeavesNew(b, before, k, f)) - SumTo(LeavesNew(b, before, k, f), i)
  }

  function TaxableGap(b: Book, am: Amounts, k: Key): real { TaxableSum(b, am, k) - Sum(TaxableValues(b, am, k)) }

  function TaxableGapNew(b: Book, before: Amounts, k: Key, f: real): real {
    Sum(TaxableNew(b, before, k, f)) - Sum(TaxableLeavesNew(b, before, k, f))
  }

  /** What a percentage of the scrubber's leaves comes to beyond the same of the rules'. */
  function PercentGap(b: Book, am: Amounts, k: Key, percent: real): real {
    PercentOf(LeafSum(b, am, k), percent) - PercentOf(Sum(LeafValues(b, am, k)), percent)
  }

  function PercentGapNew(b: Book, before: Amounts, k: Key, percent: real, f: real): real {
    PercentOf(Sum(CountedLeavesNew(b, before, k, f)), percent) - PercentOf(Sum(LeavesNew(b, before, k, f)), percent)
  }

  /** The tax in the scrubber's formula that the checker leaves out. */
  function UncheckedTax(b: Book, am: Amounts, k: Key): real
    requires k in b.entities
  {
    TaxOf(b, am, k) - CheckedTax(b, am, k)
  }

  // ---- The forecast comes true ----

  lemma SubsForeseen(b: Book, before: Amounts, after: Amounts, k: Key, i: nat, f: real)
    requires after.Keys == before.Keys && i < |b.Lines(k)| && b.Lines(k)[i].detail.Group?
    requires LeafLineEq(b, before, after, k, i, f)
    ensures SubValues(b, after, k, i) == SubsNew(b, before, k, i, f)
  {
    forall j: nat | j < |b.Lines(k)[i].subs|
      ensures Get(after, SubAmount(k, i, j)) ==
              ItemNew(b, before, SubAmount(k, i, j), SubPrice(k, i, j), b.Lines(k)[i].subs[j].qty, f)
    {
      assert SubEq(b, before, after, k, i, j, f);
    }
  }

  lemma LineForeseen(b: Book, before: Amounts, after: Amounts, k: Key, i: nat, f: real)
    requires after.Keys == before.Keys && i < |b.Lines(k)| && IsLeaf(b.Lines(k)[i])
    requires LeafLineEq(b, before, after, k, i, f)
    ensures Get(after, LineAmount(k, i)) == LineNew(b, before, k, i, f)
    ensures LineValue(b, after, k, i) == CountedNew(b, before, k, i, f)
  {
    if b.Lines(k)[i].detail.Group? { SubsForeseen(b, before, after, k, i, f); }
  }

  lemma LeavesForeseen(b: Book, before: Amounts, after: Amounts, k: Key, f: real)
    requires after.Keys == before.Keys && LinesEq(b, before, after, k, f)
    ensures LeafValues(b, after, k) == LeavesNew(b, before, k, f)
    ensures LineValues(b, after, k) == CountedLeavesNew(b, before, k, f)
    ensures TaxableLineValues(b, after, k) == TaxableNew(b, before, k, f)
    ensures TaxableValues(b, after, k) == TaxableLeavesNew(b, before, k, f)
  {
    forall i: nat | i < |b.Lines(k)| && IsLeaf(b.Lines(k)[i])
      ensures Get(after, LineAmount(k, i)) == LineNew(b, before, k, i, f)
      ensures LineValue(b, after, k, i) == CountedNew(b, before, k, i, f)
    {
      LineForeseen(b, before, after, k, i, f);
    }
  }

  lemma DiscountsForeseen(b: Book, before: Amounts, after: Amounts, k: Key, f: real)
    requires after.Keys == before.Keys && LinesEq(b, before, after, k, f)
    ensures DiscountValues(b, after, k) == DiscountsNew(b, before, k, f)
  {
    LeavesForeseen(b, before, after, k, f);
    forall i: nat | i < |b.Lines(k)| && b.Lines(k)[i].detail.Discount?
      ensures Get(after, LineAmount(k, i)) == DiscountNew(b, before, k, i, f)
    {
      assert SummaryLineEq(b, before, after, k, i, f);
    }
  }

  lemma TaxForeseen(b: Book, before: Amounts, after: Amounts, k: Key, f: real)
    requires after.Keys == before.Keys && LinesEq(b, before, after, k, f) && TaxEq(b, before, after, k, f)
    ensures TaxOf(b, after, k) == TaxNew(b, before, k, f)
    ensures k in b.entities ==> UncheckedTax(b, after, k) == UncheckedTaxNew(b, before, k, f)
    ensures forall i: nat :: i < |b.TaxLines(k)| ==> Get(after, TaxBase(k, i)) == TaxBaseNew(b, before, k, i, f)
  {
    LeavesForeseen(b, before, after, k, f);
    forall i: nat | i < |b.TaxLines(k)|
      ensures Get(after, TaxBase(k, i)) == TaxBaseNew(b, before, k, i, f)
      ensures Get(after, TaxAmount(k, i)) == TaxLineNew(b, before, k, i, f)
    {
      assert TaxLineEq(b, before, after, k, i, f);
    }
    assert TaxValues(b, after, k) == TaxesNew(b, before, k, f);
  }

  /** The new total and the new base are what the original and the factor say. */
  lemma BaseForeseen(b: Book, before: Amounts, after: Amounts, k: Key, f: real)
    requires after.Keys == before.Keys && LineDocEq(b, before, after, k, f)
    ensures Get(after, Head(k, TotalAmt)) == TotalNew(b, before, k, f)
    ensures Base(after, k) == BaseNew(b, before, k, f)
  {
    LeavesForeseen(b, before, after, k, f);
    DiscountsForeseen(b, before, after, k, f);
    TaxForeseen(b, before, after, k, f);
  }

  lemma BalanceForeseen(b: Book, before: Amounts, after: Amounts, k: Key, f: real)
    requires after.Keys == before.Keys && LineDocEq(b, before, after, k, f) && BalanceEq(b, before, after, k, f)
    ensures TargetApplied(b, before, after, k, f) == AppliedForecast(b, before, k, f)
    ensures Get(after, Head(k, Balance)) == BalanceNew(b, before, k, f)
  {
    BaseForeseen(b, before, after, k, f);
  }
}
