/** The bookkeeping of the scrubber's loops: what holds of the figures written so far after
    each turn of a loop, and why one more turn keeps it. */
module ScrubSteps {
  import opened Cents
  import opened Wrappers
  import opened FixtureBook
  import opened ScrubSpec
  import opened ScrubStability
  import Allocate

  /** An old and a new figure. */
  type Pair = (real, real)

  function AddPair(p: Pair, q: Pair): Pair { (p.0 + q.0, p.1 + q.1) }

  lemma AddPairWhole(p: Pair, q: Pair)
    requires Whole(p.1) && Whole(q.1)
    ensures Whole(AddPair(p, q).1)
  {
    WholeAdd(p.1, q.1);
  }

  lemma FormulaStays(b: Book, before: Amounts, was: Amounts, out: Amounts, k: Key, f: real)
    requires Grew(before, was, out) && LinesEq(b, before, was, k, f) && TaxEq(b, before, was, k, f)
    ensures LinesEq(b, before, out, k, f) && TaxEq(b, before, out, k, f)
    ensures TotalFormula(b, out, k) == TotalFormula(b, was, k)
  {
    LinesStable(b, before, was, out, k, f);
    TaxStable(b, before, was, out, k, f);
  }

  ghost predicate NewOnLines(b: Book, before: Amounts, start: Amounts, out: Amounts, k: Key) {
    forall fld :: fld in out && fld !in start ==>
      fld.key == k && OnLineUpTo(fld, |b.Lines(k)|) && Stage(b, before, fld) == 1
  }

  ghost predicate LinesSummed(b: Book, before: Amounts, out: Amounts, k: Key, leaf: Pair, taxable: Pair,
                              discount: Pair) {
    && leaf.0 == LeafSum(b, before, k) && leaf.1 == LeafSum(b, out, k)
    && taxable.0 == TaxableSum(b, before, k) && taxable.1 == TaxableSum(b, out, k)
    && discount.0 == Sum(DiscountValues(b, before, k)) && discount.1 == Sum(DiscountValues(b, out, k))
  }

  lemma LeavesToStand(b: Book, before: Amounts, start: Amounts, out: Amounts, k: Key, f: real, leaf: Pair,
                      taxable: Pair)
    requires LeavesDone(b, before, start, out, k, |b.Lines(k)|, f, leaf, taxable)
    requires forall fld :: fld in start ==> fld.key != k
    ensures LeavesStand(b, before, out, k, f, leaf)
    ensures forall i: nat :: i < |b.Lines(k)| && !IsLeaf(b.Lines(k)[i]) ==> LineAmount(k, i) !in out
  {}

  /** When every pass is through, every line's equation holds. */
  lemma LinesComplete(b: Book, before: Amounts, start: Amounts, mid: Amounts, out: Amounts, k: Key, leaf: Pair,
                      taxable: Pair, f: real)
    requires LeavesDone(b, before, start, mid, k, |b.Lines(k)|, f, leaf, taxable)
    requires SummariesDone(b, before, mid, out, k, |b.Lines(k)|, |b.Lines(k)|, f, leaf)
    ensures Grew(before, start, out) && NewOnLines(b, before, start, out, k) && LinesEq(b, before, out, k, f)
    ensures leaf.0 == LeafSum(b, before, k) && leaf.1 == LeafSum(b, out, k)
    ensures taxable.0 == TaxableSum(b, before, k) && taxable.1 == TaxableSum(b, out, k)
  {
    LeafLinesStable(b, before, mid, out, k, |b.Lines(k)|, f);
    forall i: nat | i < |b.Lines(k)| ensures SummaryLineEq(b, before, out, k, i, f) {
      assert !IsLeaf(b.Lines(k)[i]) ==> IsSummary(b, k, i, |b.Lines(k)|, |b.Lines(k)|);
    }
  }

  lemma LinesStay(b: Book, before: Amounts, was: Amounts, out: Amounts, k: Key, f: real, leaf: Pair, taxable: Pair,
                  discount: Pair)
    requires Grew(before, was, out) && LinesEq(b, before, was, k, f) &&
        LinesSummed(b, before, was, k, leaf, taxable, discount)
    ensures LinesEq(b, before, out, k, f) && LinesSummed(b, before, out, k, leaf, taxable, discount)
  {
    LinesStable(b, before, was, out, k, f);
  }

  lemma TaxStart(b: Book, before: Amounts, out: Amounts, k: Key)
    ensures TaxesSummed(b, before, out, k, 0, (0.0, 0.0))
  {}

  lemma TaxComplete(b: Book, before: Amounts, out: Amounts, k: Key, taxable: Pair, f: real)
    requires TaxesFrom(b, before, out, k, |b.TaxLines(k)|, taxable, f)
    requires taxable.0 == TaxableSum(b, before, k) && taxable.1 == TaxableSum(b, out, k)
    requires k in b.entities && b.entities[k].tax.Some? ==>
      DerivedEq(before, out, TotalTax(k), Sum(TaxValues(b, out, k)), Sum(TaxValues(b, before, k)), f)
    ensures TaxEq(b, before, out, k, f)
  {
    forall i: nat | i < |b.TaxLines(k)| ensures TaxLineEq(b, before, out, k, i, f) {
      assert TaxFrom(b, before, out, k, i, taxable, f);
    }
  }

  ghost predicate TaxFrom(b: Book, before: Amounts, out: Amounts, k: Key, i: nat, taxable: Pair, f: real)
    requires i < |b.TaxLines(k)|
  {
    var percent := b.TaxLines(k)[i].percent;
    && DerivedEq(before, out, TaxBase(k, i), taxable.1, taxable.0, f)
    && if TaxBase(k, i) in before && percent.Some? then
         DerivedEq(before, out, TaxAmount(k, i),
           PercentOf(Get(out, TaxBase(k, i)), percent.value), PercentOf(before[TaxBase(k, i)], percent.value), f)
       else LeafEq(before, out, TaxAmount(k, i), f)
  }

  ghost predicate TaxesFrom(b: Book, before: Amounts, out: Amounts, k: Key, n: nat, taxable: Pair, f: real)
    requires n <= |b.TaxLines(k)|
  {
    forall i: nat :: i < n ==> TaxFrom(b, before, out, k, i, taxable, f)
  }

  ghost predicate TaxesSummed(b: Book, before: Amounts, out: Amounts, k: Key, n: nat, tax: Pair)
    requires n <= |b.TaxLines(k)|
  {
    tax.0 == SumTo(TaxValues(b, before, k), n) && tax.1 == SumTo(TaxValues(b, out, k), n)
  }

  ghost predicate NewOnTaxes(b: Book, before: Amounts, start: Amounts, out: Amounts, k: Key, n: nat) {
    forall fld :: fld in out && fld !in start ==>
      (fld.TaxBase? || fld.TaxAmount?) && fld.key == k && fld.line < n && Stage(b, before, fld) == 1
  }

  lemma TaxUnwritten(b: Book, before: Amounts, start: Amounts, out: Amounts, k: Key, i: nat)
    requires NewOnTaxes(b, before, start, out, k, i) && TaxBase(k, i) !in start && TaxAmount(k, i) !in start
    ensures TaxBase(k, i) !in out && TaxAmount(k, i) !in out
  {}

  lemma NewOnTaxesNext(b: Book, before: Amounts, start: Amounts, was: Amounts, out: Amounts, k: Key, i: nat)
    requires NewOnTaxes(b, before, start, was, k, i) && IsLineDoc(k.kind) && i < |b.TaxLines(k)|
    requires forall fld :: fld in out && fld !in was ==> fld == TaxBase(k, i) || fld == TaxAmount(k, i)
    ensures NewOnTaxes(b, before, start, out, k, i + 1)
  {}

  lemma TaxesStay(b: Book, before: Amounts, was: Amounts, out: Amounts, k: Key, n: nat, taxable: Pair, f: real,
                  tax: Pair)
    requires Grew(before, was, out) && n <= |b.TaxLines(k)|
    requires TaxesFrom(b, before, was, k, n, taxable, f) && TaxesSummed(b, before, was, k, n, tax)
    ensures TaxesFrom(b, before, out, k, n, taxable, f) && TaxesSummed(b, before, out, k, n, tax)
  {
    forall i: nat | i < n
      ensures TaxFrom(b, before, out, k, i, taxable, f) && TaxValues(b, out, k)[i] == TaxValues(b, was, k)[i]
    {
      assert TaxFrom(b, before, was, k, i, taxable, f);
    }
    SumToAgrees(TaxValues(b, out, k), TaxValues(b, was, k), n);
  }

  lemma TaxesFromNext(b: Book, before: Amounts, was: Amounts, out: Amounts, k: Key, i: nat, taxable: Pair, f: real,
                      tax: Pair)
    requires Grew(before, was, out) && i < |b.TaxLines(k)|
    requires TaxesFrom(b, before, was, k, i, taxable, f) && TaxesSummed(b, before, was, k, i, tax)
    requires TaxFrom(b, before, out, k, i, taxable, f)
    ensures TaxesFrom(b, before, out, k, i + 1, taxable, f)
    ensures TaxesSummed(b, before, out, k, i +
        1, AddPair(tax, (Get(before, TaxAmount(k, i)), Get(out, TaxAmount(k, i)))))
  {
    TaxesStay(b, before, was, out, k, i, taxable, f, tax);
  }

  predicate OnLineUpTo(fld: Field, n: nat) {
    (fld.LineAmount? || fld.LinePrice? || fld.SubAmount? || fld.SubPrice?) && fld.line < n
  }

  predicate OnLeafLine(b: Book, fld: Field, n: nat) {
    OnLineUpTo(fld, n) && fld.line < |b.Lines(fld.key)| && IsLeaf(b.Lines(fld.key)[fld.line])
  }

  /** The first `n` lines are scrubbed as far as the first pass goes. */
  ghost predicate LeavesDone(b: Book, before: Amounts, start: Amounts, out: Amounts, k: Key, n: nat, f: real,
                             leaf: Pair, taxable: Pair)
    requires n <= |b.Lines(k)|
  {
    && Grew(before, start, out)
    && NewOnLeaves(b, before, start, out, k, n)
    && LeafLinesEq(b, before, out, k, n, f)
    && LeavesSummed(b, before, out, k, n, leaf, taxable)
  }

  ghost predicate NewOnLeaves(b: Book, before: Amounts, start: Amounts, out: Amounts, k: Key, n: nat) {
    forall fld :: fld in out && fld !in start ==>
      fld.key == k && OnLeafLine(b, fld, n) && Stage(b, before, fld) == 1
  }

  ghost predicate LeafLinesEq(b: Book, before: Amounts, out: Amounts, k: Key, n: nat, f: real)
    requires n <= |b.Lines(k)|
  {
    forall i: nat :: i < n ==> LeafLineEq(b, before, out, k, i, f)
  }

  ghost predicate LeavesSummed(b: Book, before: Amounts, out: Amounts, k: Key, n: nat, leaf: Pair, taxable: Pair)
    requires n <= |b.Lines(k)|
  {
    && leaf.0 == SumTo(LineValues(b, before, k), n) && leaf.1 == SumTo(LineValues(b, out, k), n)
    && taxable.0 == SumTo(TaxableLineValues(b, before, k), n) && taxable.1 == SumTo(TaxableLineValues(b, out, k), n)
  }

  lemma NewOnLeavesNext(b: Book, before: Amounts, start: Amounts, was: Amounts, out: Amounts, k: Key, i: nat)
    requires i < |b.Lines(k)| && IsLeaf(b.Lines(k)[i]) && NewOnLeaves(b, before, start, was, k, i)
    requires forall fld :: fld in out && fld !in was ==> fld.key == k && OnLine(fld, i) && Stage(b, before, fld) == 1
    ensures NewOnLeaves(b, before, start, out, k, i + 1)
  {}

  lemma LeafLinesStay(b: Book, before: Amounts, was: Amounts, out: Amounts, k: Key, n: nat, f: real, leaf: Pair,
                      taxable: Pair)
    requires n <= |b.Lines(k)| && Grew(before, was, out) && LeafLinesEq(b, before, was, k, n, f)
    requires LeavesSummed(b, before, was, k, n, leaf, taxable)
    ensures LeafLinesEq(b, before, out, k, n, f)
    ensures LeavesSummed(b, before, out, k, n, leaf, taxable)
  {
    LeafLinesStable(b, before, was, out, k, n, f);
  }

  lemma SummedNext(b: Book, before: Amounts, out: Amounts, k: Key, i: nat, leaf: Pair, taxable: Pair)
    requires i < |b.Lines(k)| && LeavesSummed(b, before, out, k, i, leaf, taxable)
    ensures IsLeaf(b.Lines(k)[i]) ==>
      var o, n := LineValue(b, before, k, i), LineValue(b, out, k, i);
      LeavesSummed(b, before, out, k, i + 1, (leaf.0 + o, leaf.1 + n),
        if b.Lines(k)[i].isTaxable then (taxable.0 + o, taxable.1 + n) else taxable)
    ensures !IsLeaf(b.Lines(k)[i]) ==> LeavesSummed(b, before, out, k, i + 1, leaf, taxable)
  {}

  lemma LeavesExtended(b: Book, before: Amounts, start: Amounts, was: Amounts, out: Amounts, k: Key, i: nat, f: real,
                       leaf: Pair, taxable: Pair)
    requires i < |b.Lines(k)| && IsLeaf(b.Lines(k)[i])
    requires LeavesDone(b, before, start, was, k, i, f, leaf, taxable) && Grew(before, was, out)
    requires forall fld :: fld in out && fld !in was ==> fld.key == k && OnLine(fld, i) && Stage(b, before, fld) == 1
    requires LeafLineEq(b, before, out, k, i, f)
    ensures var o, n := LineValue(b, before, k, i), LineValue(b, out, k, i);
      LeavesDone(b, before, start, out, k, i + 1, f, (leaf.0 + o, leaf.1 + n),
        if b.Lines(k)[i].isTaxable then (taxable.0 + o, taxable.1 + n) else taxable)
  {
    NewOnLeavesNext(b, before, start, was, out, k, i);
    LeafLinesStay(b, before, was, out, k, i, f, leaf, taxable);
    SummedNext(b, before, out, k, i, leaf, taxable);
  }

  lemma LeavesSkipped(b: Book, before: Amounts, start: Amounts, out: Amounts, k: Key, i: nat, f: real, leaf: Pair,
                      taxable: Pair)
    requires i < |b.Lines(k)| && !IsLeaf(b.Lines(k)[i]) && LeavesDone(b, before, start, out, k, i, f, leaf, taxable)
    ensures LeavesDone(b, before, start, out, k, i + 1, f, leaf, taxable)
  {
    SummedNext(b, before, out, k, i, leaf, taxable);
  }

  /** Every line stands as the first pass left it. */
  ghost predicate LeavesStand(b: Book, before: Amounts, out: Amounts, k: Key, f: real, leaf: Pair) {
    && LeafLinesEq(b, before, out, k, |b.Lines(k)|, f)
    && leaf.0 == LeafSum(b, before, k) && leaf.1 == LeafSum(b, out, k)
  }

  lemma LeavesStay(b: Book, before: Amounts, was: Amounts, out: Amounts, k: Key, f: real, leaf: Pair)
    requires Grew(before, was, out) && LeavesStand(b, before, was, k, f, leaf)
    ensures LeavesStand(b, before, out, k, f, leaf)
  {
    LeafLinesStable(b, before, was, out, k, |b.Lines(k)|, f);
  }

  /** Line `i` is a subtotal below `s` or a discount below `d`. */
  predicate IsSummary(b: Book, k: Key, i: nat, s: nat, d: nat) {
    && i < |b.Lines(k)|
    && ((b.Lines(k)[i].detail.SubTotal? && i < s) || (b.Lines(k)[i].detail.Discount? && i < d))
  }

  /** A subtotal or discount follows the leaf sums `leaf`. */
  ghost predicate SummaryFrom(b: Book, before: Amounts, out: Amounts, k: Key, i: nat, leaf: Pair, f: real)
    requires i < |b.Lines(k)|
  {
    var line := b.Lines(k)[i];
    if line.detail.SubTotal? then DerivedEq(before, out, LineAmount(k, i), leaf.1, leaf.0, f)
    else if line.percent.Some? then
      DerivedEq(before, out, LineAmount(k, i), PercentOf(leaf.1, line.percent.value),
          PercentOf(leaf.0, line.percent.value), f)
    else LeafEq(before, out, LineAmount(k, i), f)
  }

  ghost predicate NewOnSummaries(b: Book, before: Amounts, start: Amounts, out: Amounts, k: Key, s: nat, d: nat) {
    forall fld :: fld in out && fld !in start ==>
      fld.LineAmount? && fld.key == k && Stage(b, before, fld) == 1 && IsSummary(b, k, fld.line, s, d)
  }

  ghost predicate SummariesEq(b: Book, before: Amounts, out: Amounts, k: Key, s: nat, d: nat, leaf: Pair, f: real) {
    forall i: nat :: IsSummary(b, k, i, s, d) ==> SummaryFrom(b, before, out, k, i, leaf, f)
  }

  /** Subtotals below `s` and discounts below `d` are scrubbed as well. */
  ghost predicate SummariesDone(b: Book, before: Amounts, start: Amounts, out: Amounts, k: Key, s: nat, d: nat,
                                f: real, leaf: Pair) {
    && Grew(before, start, out)
    && LeavesStand(b, before, out, k, f, leaf)
    && NewOnSummaries(b, before, start, out, k, s, d)
    && SummariesEq(b, before, out, k, s, d, leaf, f)
  }

  lemma SummariesEqNext(b: Book, before: Amounts, was: Amounts, out: Amounts, k: Key, i: nat, s: nat, d: nat,
                        leaf: Pair, f: real)
    requires i < |b.Lines(k)| && Grew(before, was, out) && SummariesEq(b, before, was, k, s, d, leaf, f)
    requires if b.Lines(k)[i].detail.SubTotal? then i == s else i == d
    requires SummaryFrom(b, before, out, k, i, leaf, f)
    ensures SummariesEq(b, before, out, k, if b.Lines(k)[i].detail.SubTotal? then s + 1 else s,
      if b.Lines(k)[i].detail.SubTotal? then d else d + 1, leaf, f)
  {
    var (s', d') := if b.Lines(k)[i].detail.SubTotal? then (s + 1, d) else (s, d + 1);
    forall j: nat | IsSummary(b, k, j, s', d') ensures SummaryFrom(b, before, out, k, j, leaf, f) {
      if j != i { assert IsSummary(b, k, j, s, d); }
    }
  }

  lemma SummariesExtended(b: Book, before: Amounts, start: Amounts, was: Amounts, out: Amounts, k: Key, i: nat, s: nat,
                          d: nat, f: real, leaf: Pair)
    requires i < |b.Lines(k)| && IsLineDoc(k.kind)
    requires SummariesDone(b, before, start, was, k, s, d, f, leaf) && Grew(before, was, out)
    requires if b.Lines(k)[i].detail.SubTotal? then i == s else b.Lines(k)[i].detail.Discount? && i == d
    requires forall fld :: fld in out && fld !in was ==> fld == LineAmount(k, i)
    requires SummaryFrom(b, before, out, k, i, leaf, f)
    ensures SummariesDone(b, before, start, out, k, if b.Lines(k)[i].detail.SubTotal? then s + 1 else s,
      if b.Lines(k)[i].detail.SubTotal? then d else d + 1, f, leaf)
  {
    LeavesStay(b, before, was, out, k, f, leaf);
    SummariesEqNext(b, before, was, out, k, i, s, d, leaf, f);
  }

  lemma SummariesSkipped(b: Book, before: Amounts, start: Amounts, out: Amounts, k: Key, s: nat, d: nat, f: real,
                         leaf: Pair)
    requires SummariesDone(b, before, start, out, k, s, d, f, leaf)
    ensures s < |b.Lines(k)| && !b.Lines(k)[s].detail.SubTotal? ==>
        SummariesDone(b, before, start, out, k, s + 1, d, f, leaf)
    ensures d < |b.Lines(k)| && !b.Lines(k)[d].detail.Discount? ==>
        SummariesDone(b, before, start, out, k, s, d + 1, f, leaf)
  {
    assert forall i: nat :: s < |b.Lines(k)| && !b.Lines(k)[s].detail.SubTotal? && IsSummary(b, k, i, s + 1, d) ==>
        IsSummary(b, k, i, s, d);
    assert forall i: nat :: d < |b.Lines(k)| && !b.Lines(k)[d].detail.Discount? && IsSummary(b, k, i, s, d + 1) ==>
        IsSummary(b, k, i, s, d);
  }

  lemma DiscountUnwritten(b: Book, before: Amounts, start: Amounts, out: Amounts, k: Key, i: nat, f: real, leaf: Pair)
    requires i < |b.Lines(k)| && b.Lines(k)[i].detail.Discount? && LineAmount(k, i) !in start
    requires SummariesDone(b, before, start, out, k, |b.Lines(k)|, i, f, leaf)
    ensures LineAmount(k, i) !in out
  {}

  ghost predicate DiscountsSummed(b: Book, before: Amounts, out: Amounts, k: Key, n: nat, discount: Pair)
    requires n <= |b.Lines(k)|
  {
    discount.0 == SumTo(DiscountValues(b, before, k), n) && discount.1 == SumTo(DiscountValues(b, out, k), n)
  }

  lemma DiscountsSummedNext(b: Book, before: Amounts, was: Amounts, out: Amounts, k: Key, i: nat, leaf: Pair,
                            discount: Pair, f: real)
    requires Grew(before, was, out) && i < |b.Lines(k)| && b.Lines(k)[i].detail.Discount?
    requires SummariesEq(b, before, was, k, |b.Lines(k)|, i, leaf, f)
    requires DiscountsSummed(b, before, was, k, i, discount)
    ensures DiscountsSummed(b, before, out, k, i + 1,
      AddPair(discount, (Get(before, LineAmount(k, i)), Get(out, LineAmount(k, i)))))
  {
    forall j: nat | j < i ensures DiscountValues(b, out, k)[j] == DiscountValues(b, was, k)[j] {
      assert b.Lines(k)[j].detail.Discount? ==> IsSummary(b, k, j, |b.Lines(k)|, i);
    }
    SumToAgrees(DiscountValues(b, out, k), DiscountValues(b, was, k), i);
  }

  lemma SubsStable(b: Book, before: Amounts, out: Amounts, now: Amounts, k: Key, i: nat, n: nat, f: real)
    requires Grew(before, out, now) && i < |b.Lines(k)| && n <= |b.Lines(k)[i].subs|
    requires forall j: nat :: j < n ==> SubEq(b, before, out, k, i, j, f)
    ensures forall j: nat :: j < n ==> SubEq(b, before, now, k, i, j, f)
    ensures SumTo(SubValues(b, now, k, i), n) == SumTo(SubValues(b, out, k, i), n)
  {
    forall j: nat | j < n
      ensures SubEq(b, before, now, k, i, j, f)
      ensures SubValues(b, now, k, i)[j] == SubValues(b, out, k, i)[j]
    {
      assert SubEq(b, before, out, k, i, j, f);
    }
    SumToAgrees(SubValues(b, now, k, i), SubValues(b, out, k, i), n);
  }

  /** What the scrubber has done of a group's sub-lines after `j` of them. */
  ghost predicate SubsDone(b: Book, before: Amounts, start: Amounts, out: Amounts, k: Key, i: nat, j: nat, f: real,
                           total: Pair)
    requires i < |b.Lines(k)| && j <= |b.Lines(k)[i].subs|
  {
    && Grew(before, start, out)
    && NewOnSubs(b, before, start, out, k, i, j)
    && SubsEq(b, before, out, k, i, j, f)
    && total.0 == SumTo(SubValues(b, before, k, i), j) && total.1 == SumTo(SubValues(b, out, k, i), j)
  }

  ghost predicate NewOnSubs(b: Book, before: Amounts, start: Amounts, out: Amounts, k: Key, i: nat, j: nat) {
    forall fld :: fld in out && fld !in start ==> fld.key == k && OnSub(fld, i, j) && Stage(b, before, fld) == 1
  }

  ghost predicate SubsEq(b: Book, before: Amounts, out: Amounts, k: Key, i: nat, n: nat, f: real)
    requires i < |b.Lines(k)| && n <= |b.Lines(k)[i].subs|
  {
    forall j: nat :: j < n ==> SubEq(b, before, out, k, i, j, f)
  }

  lemma SubUnwritten(b: Book, before: Amounts, start: Amounts, out: Amounts, k: Key, i: nat, j: nat)
    requires i < |b.Lines(k)| && j < |b.Lines(k)[i].subs| && NewOnSubs(b, before, start, out, k, i, j)
    requires forall fld :: fld in start && fld.key == k ==> !OnSub(fld, i, |b.Lines(k)[i].subs|)
    ensures SubAmount(k, i, j) !in out && SubPrice(k, i, j) !in out
  {
    assert OnSub(SubAmount(k, i, j), i, |b.Lines(k)[i].subs|) && OnSub(SubPrice(k, i, j), i, |b.Lines(k)[i].subs|);
  }

  lemma NewOnSubsNext(b: Book, before: Amounts, start: Amounts, was: Amounts, out: Amounts, k: Key, i: nat, j: nat)
    requires IsLineDoc(k.kind) && i < |b.Lines(k)| && b.Lines(k)[i].detail.Group? && j < |b.Lines(k)[i].subs|
    requires NewOnSubs(b, before, start, was, k, i, j)
    requires forall fld :: fld in out && fld !in was ==>
      fld == SubAmount(k, i, j) ||
          (fld == SubPrice(k, i, j) && Priced(before, SubAmount(k, i, j), fld, b.Lines(k)[i].subs[j].qty))
    ensures NewOnSubs(b, before, start, out, k, i, j + 1)
  {}

  lemma SubsNext(b: Book, before: Amounts, start: Amounts, was: Amounts, out: Amounts, k: Key, i: nat, j: nat, f: real,
                 total: Pair)
    requires IsLineDoc(k.kind) && i < |b.Lines(k)| && b.Lines(k)[i].detail.Group? && j < |b.Lines(k)[i].subs|
    requires SubsDone(b, before, start, was, k, i, j, f, total) && Grew(before, was, out)
    requires forall fld :: fld in out && fld !in was ==>
      fld == SubAmount(k, i, j) ||
          (fld == SubPrice(k, i, j) && Priced(before, SubAmount(k, i, j), fld, b.Lines(k)[i].subs[j].qty))
    requires SubEq(b, before, out, k, i, j, f)
    ensures SubsDone(b, before, start, out, k, i, j + 1, f,
      (total.0 + Get(before, SubAmount(k, i, j)), total.1 + Get(out, SubAmount(k, i, j))))
  {
    NewOnSubsNext(b, before, start, was, out, k, i, j);
    SubsStable(b, before, was, out, k, i, j, f);
  }

  /** A figure of line `i`. */
  predicate OnLine(fld: Field, i: nat) {
    (fld.LineAmount? || fld.LinePrice? || fld.SubAmount? || fld.SubPrice?) && fld.line == i
  }

  predicate OnSub(fld: Field, i: nat, j: nat) {
    (fld.SubAmount? || fld.SubPrice?) && fld.line == i && fld.sub < j
  }

  // ---- Journals ----

  function LineFields(k: Key, lines: seq<nat>): (s: seq<Field>)
    ensures |s| == |lines| && forall i :: 0 <= i < |s| ==> s[i] == LineAmount(k, lines[i])
  {
    seq(|lines|, i requires 0 <= i < |lines| => LineAmount(k, lines[i]))
  }

  /** Among the first `n` lines of a journal, those on neither side are scrubbed, and nothing else is new. */
  ghost predicate FreeLines(b: Book, before: Amounts, start: Amounts, out: Amounts, k: Key, n: nat, f: real)
    requires n <= |b.Lines(k)|
  {
    && (forall fld :: fld in out && fld !in start ==>
          fld.LineAmount? && fld.key == k && fld.line < n && b.Lines(k)[fld.line].posting.None?)
    && (forall i: nat :: i < n && b.Lines(k)[i].posting.None? ==> LeafEq(before, out, LineAmount(k, i), f))
  }

  predicate Increasing(s: seq<nat>) { forall i, j :: 0 <= i < j < |s| ==> s[i] < s[j] }

  lemma {:induction false} SideLinesIncreasing(b: Book, fields: set<Field>, k: Key, side: Side, n: nat)
    ensures Increasing(SideLines(b, fields, k, side, n))
  {
    if n > 0 {
      SideLinesIncreasing(b, fields, k, side, n - 1);
      var shorter := SideLines(b, fields, k, side, n - 1);
      assert forall i: nat :: i in shorter ==> i < n - 1;
      IncreasingSnoc(shorter, n - 1);
    }
  }

  lemma IncreasingSnoc(s: seq<nat>, x: nat)
    requires Increasing(s) && forall i: nat :: i in s ==> i < x
    ensures Increasing(s + [x])
  {
    assert forall j :: 0 <= j < |s| ==> s[j] in s;
  }

  lemma FreeLinesNext(b: Book, before: Amounts, start: Amounts, was: Amounts, out: Amounts, k: Key, i: nat, f: real)
    requires i < |b.Lines(k)| && FreeLines(b, before, start, was, k, i, f) && Grew(before, was, out)
    requires if b.Lines(k)[i].posting.None? then
        LeafEq(before, out, LineAmount(k, i), f) &&
            (forall fld :: fld in out && fld !in was ==> fld == LineAmount(k, i))
      else forall fld :: fld in out ==> fld in was
    ensures FreeLines(b, before, start, out, k, i + 1, f)
  {}

  /** The lines of a side hold their allocation of `total`. */
  ghost predicate SideAllocated(before: Amounts, out: Amounts, k: Key, lines: seq<nat>, total: real) {
    forall i :: 0 <= i < |lines| ==>
      && LineAmount(k, lines[i]) in out
      && out[LineAmount(k, lines[i])] == Allocate.Allocation(LineAmounts(before, k, lines), total)[i]
  }

  lemma SideComplete(before: Amounts, out: Amounts, k: Key, lines: seq<nat>, total: real)
    requires SideAllocated(before, out, k, lines, total)
    ensures LineAmounts(out, k, lines) == Allocate.Allocation(LineAmounts(before, k, lines), total)
  {}

  ghost predicate SideWritten(b: Book, fields: set<Field>, out: Amounts, k: Key, side: Side) {
    forall i: nat :: OnSide(b, fields, k, side, i) ==> LineAmount(k, i) in out
  }

  lemma AllocatedWritten(b: Book, before: Amounts, out: Amounts, k: Key, side: Side, total: real)
    requires SideAllocated(before, out, k, SideLines(b, before.Keys, k, side, |b.Lines(k)|), total)
    ensures SideWritten(b, before.Keys, out, k, side)
  {
    forall i: nat | OnSide(b, before.Keys, k, side, i) ensures LineAmount(k, i) in out {
      assert i in SideLines(b, before.Keys, k, side, |b.Lines(k)|);
    }
  }

  lemma LinesWritten(b: Book, before: Amounts, out: Amounts, k: Key, f: real)
    requires FreeScaled(b, before, out, k, f)
    requires SideWritten(b, before.Keys, out, k, Debit) && SideWritten(b, before.Keys, out, k, Credit)
    ensures forall i: nat :: i < |b.Lines(k)| ==> LineAmount(k, i) in before ==> LineAmount(k, i) in out
  {
    forall i: nat | i < |b.Lines(k)| && LineAmount(k, i) in before ensures LineAmount(k, i) in out {
      if b.Lines(k)[i].posting.Some? {
        var side := b.Lines(k)[i].posting.value;
        assert OnSide(b, before.Keys, k, side, i) && (side == Debit || side == Credit);
      }
    }
  }

  /** The totals a journal's sides are allocated. */
  function JournalTotals(b: Book, before: Amounts, k: Key, f: real): Pair {
    var debits, credits := Sum(JournalSide(b, before.Keys, before, k, Debit)),
        Sum(JournalSide(b, before.Keys, before, k, Credit));
    (DebitNew(debits, f), Derived(credits, DebitNew(debits, f), debits, f))
  }

  /** Every line of a journal is scrubbed, and nothing else is new. */
  ghost predicate JournalAllocated(b: Book, before: Amounts, start: Amounts, out: Amounts, k: Key, f: real) {
    && Grew(before, start, out)
    && (forall fld :: fld in out && fld !in start ==> fld.LineAmount? && fld.key == k && fld.line < |b.Lines(k)|)
    && FreeScaled(b, before, out, k, f)
    && SideAllocated(before, out, k, SideLines(b, before.Keys, k, Debit, |b.Lines(k)|),
        JournalTotals(b, before, k, f).0)
    && SideAllocated(before, out, k, SideLines(b, before.Keys, k, Credit, |b.Lines(k)|),
        JournalTotals(b, before, k, f).1)
  }

  ghost predicate FreeScaled(b: Book, before: Amounts, out: Amounts, k: Key, f: real) {
    forall i: nat :: i < |b.Lines(k)| && b.Lines(k)[i].posting.None? ==> LeafEq(before, out, LineAmount(k, i), f)
  }

  lemma FreeLinesStay(b: Book, before: Amounts, start: Amounts, free: Amounts, out: Amounts, k: Key, f: real)
    requires FreeLines(b, before, start, free, k, |b.Lines(k)|, f) && Grew(before, free, out)
    ensures FreeScaled(b, before, out, k, f)
  {}

  lemma JournalComplete(b: Book, before: Amounts, start: Amounts, was: Amounts, out: Amounts, k: Key, f: real)
    requires JournalAllocated(b, before, start, was, k, f) && Grew(before, was, out)
    requires DerivedEq(before, out, Head(k, TotalAmt), JournalTotals(b, before, k, f).0,
      Sum(JournalSide(b, before.Keys, before, k, Debit)), f)
    ensures JournalEq(b, before, out, k, f)
  {
    AllocatedWritten(b, before, was, k, Debit, JournalTotals(b, before, k, f).0);
    AllocatedWritten(b, before, was, k, Credit, JournalTotals(b, before, k, f).1);
    LinesWritten(b, before, was, k, f);
    SideStable(b, before, was, out, k, Debit);
    SideStable(b, before, was, out, k, Credit);
    SideComplete(before, was, k, SideLines(b, before.Keys, k, Debit, |b.Lines(k)|), JournalTotals(b, before, k, f).0);
    SideComplete(before, was, k, SideLines(b, before.Keys, k, Credit, |b.Lines(k)|), JournalTotals(b, before, k, f).1);
  }

  // ---- Applications ----

  function AppsOf(apps: map<Key, seq<LineRef>>, t: Key): seq<LineRef> { if t in apps then apps[t] else [] }

  /** The dictionary of applications over the first `n` entities and `m` lines of the next. */
  ghost predicate AppsFound(b: Book, fields: set<Field>, apps: map<Key, seq<LineRef>>, n: nat, m: nat)
    requires n <= |b.keys| && (m > 0 ==> n < |b.keys|)
  {
    forall t :: AppsOf(apps, t) == AppsUpTo(b, fields, t, n, m)
  }

  lemma {:induction false} NoApps(b: Book, fields: set<Field>, t: Key, n: nat, m: nat)
    requires n < |b.keys| && !IsPayer(b.keys[n].kind)
    ensures AppsUpTo(b, fields, t, n, m) == AppsUpTo(b, fields, t, n, 0)
  {
    if m > 0 { NoApps(b, fields, t, n, m - 1); }
  }

  function RefField(r: LineRef): Field { LineAmount(r.payer, r.line) }

  function RefFields(refs: seq<LineRef>): (s: seq<Field>)
    ensures |s| == |refs| && forall i :: 0 <= i < |s| ==> s[i] == RefField(refs[i])
  {
    seq(|refs|, i requires 0 <= i < |refs| => RefField(refs[i]))
  }

  /** `payer` comes before position (n, m) in the order the applications are found in. */
  predicate Precedes(b: Book, r: LineRef, n: nat, m: nat)
    requires n <= |b.keys| && (m > 0 ==> n < |b.keys|)
  {
    r.payer in b.keys[..n] || (m > 0 && r.payer == b.keys[n] && r.line < m)
  }

  predicate DistinctRefs(refs: seq<LineRef>) {
    forall i, j :: 0 <= i < j < |refs| ==> refs[i] != refs[j]
  }

  /** Each application is found once, and each is one. */
  lemma {:induction false} AppsDistinct(b: Book, fields: set<Field>, t: Key, n: nat, m: nat)
    requires n <= |b.keys| && (m > 0 ==> n < |b.keys|) && b.Valid()
    ensures DistinctRefs(AppsUpTo(b, fields, t, n, m))
    ensures forall r :: r in AppsUpTo(b, fields, t, n, m) ==>
      Precedes(b, r, n, m) && AppTarget(b, fields, r.payer, r.line) == Some(t)
    decreases n, m
  {
    if m > 0 {
      AppsDistinct(b, fields, t, n, m - 1);
      var refs := AppsUpTo(b, fields, t, n, m - 1);
      assert b.keys[n] !in b.keys[..n];
      assert forall i :: 0 <= i < |refs| ==> refs[i] in refs;
    } else if n > 0 {
      AppsDistinct(b, fields, t, n - 1, |b.Lines(b.keys[n - 1])|);
    }
  }

  /** The amounts in the fields of `refs`, once they are set. */
  lemma AppsSet(out: Amounts, refs: seq<LineRef>, cents: seq<real>)
    requires |refs| == |cents|
    requires forall i :: 0 <= i < |refs| ==> RefField(refs[i]) in out && out[RefField(refs[i])] == cents[i]
    ensures AppAmounts(out, refs) == cents
    ensures RefsWritten(out, refs)
  {
    forall r | r in refs ensures RefField(r) in out {
      var i :| 0 <= i < |refs| && refs[i] == r;
    }
  }

  ghost predicate RefsWritten(out: Amounts, refs: seq<LineRef>) {
    forall r :: r in refs ==> RefField(r) in out
  }

  /** Every application to `k` is written, and nothing else is new. */
  ghost predicate AppliedTo(b: Book, before: Amounts, start: Amounts, out: Amounts, k: Key) {
    && RefsWritten(out, Apps(b, before.Keys, k))
    && (forall fld :: fld in out && fld !in start ==>
          fld.LineAmount? && AppTarget(b, before.Keys, fld.key, fld.line) == Some(k))
  }

  lemma AppsOnlyWrite(b: Book, before: Amounts, start: Amounts, out: Amounts, k: Key)
    requires b.Valid() && RefsWritten(out, Apps(b, before.Keys, k))
    requires forall fld :: fld in out && fld !in start ==> fld in RefFields(Apps(b, before.Keys, k))
    ensures AppliedTo(b, before, start, out, k)
  {
    var refs := Apps(b, before.Keys, k);
    AppsDistinct(b, before.Keys, k, |b.keys|, 0);
    forall fld | fld in out && fld !in start
      ensures fld.LineAmount? && AppTarget(b, before.Keys, fld.key, fld.line) == Some(k)
    {
      var i :| 0 <= i < |refs| && RefFields(refs)[i] == fld;
      assert refs[i] in refs;
    }
  }

  lemma AppliedStays(b: Book, before: Amounts, start: Amounts, was: Amounts, out: Amounts, k: Key)
    requires AppliedTo(b, before, start, was, k) && Grew(before, was, out)
    ensures AppAmounts(out, Apps(b, before.Keys, k)) == AppAmounts(was, Apps(b, before.Keys, k))
    ensures RefsWritten(out, Apps(b, before.Keys, k))
  {
    var refs := Apps(b, before.Keys, k);
    forall i | 0 <= i < |refs| ensures AppAmounts(out, refs)[i] == AppAmounts(was, refs)[i] {
      assert RefField(refs[i]) in was;
    }
  }

  /** A document's total and deposit are final. */
  ghost predicate TotalWritten(before: Amounts, out: Amounts, k: Key) {
    && (Head(k, TotalAmt) in before ==> Head(k, TotalAmt) in out)
    && (Head(k, DepositPaid) in before ==> Head(k, DepositPaid) in out)
    && out.Keys <= before.Keys
  }

  lemma RefFieldsReady(b: Book, before: Amounts, out: Amounts, k: Key)
    requires b.Valid() && forall r :: r in Apps(b, before.Keys, k) ==> RefField(r) !in out
    ensures var fields := RefFields(Apps(b, before.Keys, k));
      && (forall i, j :: 0 <= i < j < |fields| ==> fields[i] != fields[j])
      && (forall i :: 0 <= i < |fields| ==> fields[i] in before && fields[i] !in out)
  {
    var refs := Apps(b, before.Keys, k);
    AppsDistinct(b, before.Keys, k, |b.keys|, 0);
    forall i | 0 <= i < |refs| ensures RefField(refs[i]) in before && RefField(refs[i]) !in out {
      assert refs[i] in refs;
    }
  }

  ghost predicate OpenFrom(before: Amounts, out: Amounts, k: Key, newOpen: real, oldOpen: real, f: real) {
    && DerivedEq(before, out, Head(k, Balance), newOpen, oldOpen, f)
    && (if Head(k, Balance) in before then
          DerivedEq(before, out, Head(k, RemainingCredit), Get(out, Head(k, Balance)), before[Head(k, Balance)], f)
        else DerivedEq(before, out, Head(k, RemainingCredit), newOpen, oldOpen, f))
  }

  lemma BaseStays(before: Amounts, was: Amounts, out: Amounts, k: Key)
    requires TotalWritten(before, was, k) && Grew(before, was, out)
    ensures Base(out, k) == Base(was, k)
  {}

  lemma BalanceComplete(b: Book, before: Amounts, start: Amounts, was: Amounts, out: Amounts, k: Key, f: real)
    requires TotalWritten(before, start, k) && AppliedTo(b, before, start, was, k)
    requires Grew(before, start, was) && Grew(before, was, out)
    requires AppAmounts(was, Apps(b, before.Keys, k))
          == Allocate.Allocation(AppAmounts(before, Apps(b, before.Keys, k)), TargetApplied(b, before, start, k, f))
    requires OpenFrom(before, out, k, Base(start, k) - TargetApplied(b, before, start, k, f),
      Base(before, k) - Applied(b, before, k), f)
    ensures BalanceEq(b, before, out, k, f)
  {
    BaseStays(before, start, was, k);
    BaseStays(before, was, out, k);
    AppliedStays(b, before, start, was, out, k);
  }

  ghost predicate NewOnBalance(b: Book, before: Amounts, start: Amounts, out: Amounts, k: Key) {
    forall fld :: fld in out && fld !in start ==> Stage(b, before, fld) == 2 && Owner(b, before, fld) == k
  }

  lemma NewOnBalanceOf(b: Book, before: Amounts, start: Amounts, was: Amounts, out: Amounts, k: Key)
    requires IsLineDoc(k.kind) && AppliedTo(b, before, start, was, k)
    requires forall fld :: fld in out && fld !in was ==> fld == Head(k, Balance) || fld == Head(k, RemainingCredit)
    ensures NewOnBalance(b, before, start, out, k)
  {}

  // ---- Payers and deposits ----

  /** From line `n` on, exactly the applications are written. */
  ghost predicate PayerReady(b: Book, before: Amounts, out: Amounts, k: Key, n: nat) {
    forall i: nat :: n <= i < |b.Lines(k)| ==>
      (LineAmount(k, i) in out <==> IsApplication(b, before.Keys, k, i))
  }

  /** The first `n` lines of a payer are scrubbed. */
  ghost predicate PayerDone(b: Book, before: Amounts, start: Amounts, out: Amounts, k: Key, n: nat, f: real, sum: Pair)
    requires n <= |b.Lines(k)|
  {
    && Grew(before, start, out)
    && (forall fld :: fld in out && fld !in start ==>
          fld.LineAmount? && fld.key == k && fld.line < n && !IsApplication(b, before.Keys, k, fld.line))
    && PayerLinesEq(b, before, out, k, n, f)
    && sum.0 == SumTo(PayerValues(b, before, k), n) && sum.1 == SumTo(PayerValues(b, out, k), n)
  }

  ghost predicate PayerLinesEq(b: Book, before: Amounts, out: Amounts, k: Key, n: nat, f: real) {
    forall i: nat :: i < n ==>
      if IsApplication(b, before.Keys, k, i) then LineAmount(k, i) in out
      else LeafEq(before, out, LineAmount(k, i), f)
  }

  lemma PayerValuesStay(b: Book, before: Amounts, was: Amounts, out: Amounts, k: Key, n: nat, f: real)
    requires n <= |b.Lines(k)| && Grew(before, was, out) && PayerLinesEq(b, before, was, k, n, f)
    ensures PayerLinesEq(b, before, out, k, n, f)
    ensures SumTo(PayerValues(b, out, k), n) == SumTo(PayerValues(b, was, k), n)
  {
    SumToAgrees(PayerValues(b, out, k), PayerValues(b, was, k), n);
  }

  lemma PayerDoneNext(b: Book, before: Amounts, start: Amounts, was: Amounts, out: Amounts, k: Key, i: nat, f: real,
                      sum: Pair)
    requires i < |b.Lines(k)| && PayerDone(b, before, start, was, k, i, f, sum) && Grew(before, was, out)
    requires forall fld :: fld in out && fld !in was ==> fld == LineAmount(k, i) && !IsApplication(b, before.Keys, k, i)
    requires if IsApplication(b, before.Keys, k, i) then LineAmount(k, i) in out
      else LeafEq(before, out, LineAmount(k, i), f)
    ensures PayerDone(b, before, start, out, k, i + 1, f,
      (sum.0 + Signed(Get(before, LineAmount(k, i)), UsesCredit(b, k, i)),
       sum.1 + Signed(Get(out, LineAmount(k, i)), UsesCredit(b, k, i))))
  {
    PayerValuesStay(b, before, was, out, k, i, f);
  }

  ghost predicate PayerTotalFrom(before: Amounts, out: Amounts, k: Key, sum: Pair, f: real) {
    && LeafEq(before, out, Head(k, UnappliedAmt), f)
    && DerivedEq(before, out, Head(k, TotalAmt),
         sum.1 + Get(out, Head(k, UnappliedAmt)), sum.0 + Get(before, Head(k, UnappliedAmt)), f)
  }

  lemma PayerComplete(b: Book, before: Amounts, start: Amounts, was: Amounts, out: Amounts, k: Key, f: real, sum: Pair)
    requires PayerDone(b, before, start, was, k, |b.Lines(k)|, f, sum) && Grew(before, was, out)
    requires PayerTotalFrom(before, out, k, sum, f)
    ensures PayerEq(b, before, out, k, f)
  {
    PayerValuesStay(b, before, was, out, k, |b.Lines(k)|, f);
  }

  /** The totals a deposit may bring are final. */
  ghost predicate SettledWritten(b: Book, before: Amounts, out: Amounts) {
    forall t :: t in b.entities && IsSettled(t.kind) && Head(t, TotalAmt) in before ==> Head(t, TotalAmt) in out
  }

  /** Of the totals a deposit may bring, exactly those scrubbed before it are written. */
  ghost predicate TotalsBefore(b: Book, before: Amounts, out: Amounts, k: Key) {
    forall t :: t in b.entities && Head(t, TotalAmt) in before ==>
      (Head(t, TotalAmt) in out <==> ScrubbedBefore(b, t, k))
  }

  ghost predicate DepositDone(b: Book, before: Amounts, start: Amounts, out: Amounts, k: Key, n: nat, f: real,
                              sum: Pair)
    requires n <= |b.Lines(k)|
  {
    && Grew(before, start, out)
    && (forall fld :: fld in out && fld !in start ==> fld.LineAmount? && fld.key == k && fld.line < n)
    && DepositLinesEq(b, before, out, k, n, f)
    && sum.0 == SumTo(DepositValues(b, before, k), n) && sum.1 == SumTo(DepositValues(b, out, k), n)
  }

  ghost predicate DepositLinesEq(b: Book, before: Amounts, out: Amounts, k: Key, n: nat, f: real)
    requires n <= |b.Lines(k)|
  {
    forall i: nat :: i < n ==> DepositLineEq(b, before, out, k, i, f)
  }

  lemma DepositLinesStay(b: Book, before: Amounts, was: Amounts, out: Amounts, k: Key, n: nat, f: real)
    requires n <= |b.Lines(k)| && Grew(before, was, out) && DepositLinesEq(b, before, was, k, n, f)
    ensures DepositLinesEq(b, before, out, k, n, f)
    ensures SumTo(DepositValues(b, out, k), n) == SumTo(DepositValues(b, was, k), n)
  {
    forall i: nat | i < n
      ensures DepositLineEq(b, before, out, k, i, f) && DepositValues(b, out, k)[i] == DepositValues(b, was, k)[i]
    {
      assert DepositLineEq(b, before, was, k, i, f);
    }
    SumToAgrees(DepositValues(b, out, k), DepositValues(b, was, k), n);
  }

  lemma DepositDoneNext(b: Book, before: Amounts, start: Amounts, was: Amounts, out: Amounts, k: Key, i: nat, f: real,
                        sum: Pair)
    requires i < |b.Lines(k)| && DepositDone(b, before, start, was, k, i, f, sum) && Grew(before, was, out)
    requires forall fld :: fld in out && fld !in was ==> fld == LineAmount(k, i)
    requires DepositLineEq(b, before, out, k, i, f)
    ensures DepositDone(b, before, start, out, k, i + 1, f,
      (sum.0 + Get(before, LineAmount(k, i)), sum.1 + Get(out, LineAmount(k, i))))
  {
    DepositLinesStay(b, before, was, out, k, i, f);
  }

  ghost predicate DepositTotalFrom(before: Amounts, out: Amounts, k: Key, sum: Pair, f: real) {
    && LeafEq(before, out, CashBack(k), f)
    && DerivedEq(before, out, Head(k, TotalAmt), sum.1 - Get(out, CashBack(k)), sum.0 - Get(before, CashBack(k)), f)
  }

  lemma DepositComplete(b: Book, before: Amounts, start: Amounts, was: Amounts, out: Amounts, k: Key, f: real,
                        sum: Pair)
    requires DepositDone(b, before, start, was, k, |b.Lines(k)|, f, sum) && Grew(before, was, out)
    requires DepositTotalFrom(before, out, k, sum, f)
    ensures DepositEq(b, before, out, k, f)
  {
    DepositLinesStay(b, before, was, out, k, |b.Lines(k)|, f);
  }

  // ---- Contacts ----

  function OpenOfContact(open: map<Key, Pair>, c: Key): Pair { if c in open then open[c] else (0.0, 0.0) }

  function AddOpen(open: map<Key, Pair>, c: Key, o: real, n: real): map<Key, Pair> {
    open[c := (OpenOfContact(open, c).0 + o, OpenOfContact(open, c).1 + n)]
  }

  /** What the first `n` documents leave open for contact `c`. */
  ghost predicate OpenSummedFor(b: Book, before: Amounts, out: Amounts, open: map<Key, Pair>, n: nat, c: Key)
    requires n <= |b.keys|
  {
    && OpenOfContact(open, c).0 == SumTo(OpenTerms(b, before, c), n)
    && OpenOfContact(open, c).1 == SumTo(OpenTerms(b, out, c), n)
  }

  ghost predicate OpenSummed(b: Book, before: Amounts, out: Amounts, open: map<Key, Pair>, n: nat)
    requires n <= |b.keys|
  {
    forall c {:trigger OpenSummedFor(b, before, out, open, n, c)} :: OpenSummedFor(b, before, out, open, n, c)
  }

  ghost predicate OpenFound(b: Book, before: Amounts, out: Amounts, open: map<Key, Pair>) {
    OpenSummed(b, before, out, open, |b.keys|)
  }

  lemma OpenStart(b: Book, before: Amounts, out: Amounts)
    ensures OpenSummed(b, before, out, map[], 0)
  {}

  lemma OpenSummedForNext(b: Book, before: Amounts, out: Amounts, open: map<Key, Pair>, open': map<Key, Pair>, j: nat,
                          c: Key)
    requires j < |b.keys| && OpenSummedFor(b, before, out, open, j, c)
    requires OpenOfContact(open', c).0 == OpenOfContact(open, c).0 + OpenTerm(b, before, b.keys[j], c)
    requires OpenOfContact(open', c).1 == OpenOfContact(open, c).1 + OpenTerm(b, out, b.keys[j], c)
    ensures OpenSummedFor(b, before, out, open', j + 1, c)
  {}

  lemma OpenSkipped(b: Book, before: Amounts, out: Amounts, open: map<Key, Pair>, j: nat)
    requires j < |b.keys| && OpenSummed(b, before, out, open, j) && out.Keys <= before.Keys
    requires OpenItemOf(b, b.keys[j]).None? || OpenItemOf(b, b.keys[j]).value.field !in before
    ensures OpenSummed(b, before, out, open, j + 1)
  {
    var n := j + 1;
    forall c ensures OpenSummedFor(b, before, out, open, n, c) {
      assert OpenSummedFor(b, before, out, open, j, c);
      OpenSummedForNext(b, before, out, open, open, j, c);
    }
  }

  function OpenPart(am: Amounts, item: OpenItem): real { Signed(Get(am, item.field), item.negative) }

  lemma OpenTermOf(b: Book, am: Amounts, doc: Key, item: OpenItem, c: Key)
    requires OpenItemOf(b, doc) == Some(item)
    ensures OpenTerm(b, am, doc, c) == if c == item.contact then OpenPart(am, item) else 0.0
  {}

  lemma AddedOpen(open: map<Key, Pair>, contact: Key, o: real, n: real, c: Key)
    ensures OpenOfContact(AddOpen(open, contact, o, n), c).0 ==
        OpenOfContact(open, c).0 + (if c == contact then o else 0.0)
    ensures OpenOfContact(AddOpen(open, contact, o, n), c).1 ==
        OpenOfContact(open, c).1 + (if c == contact then n else 0.0)
  {}

  /** A document counts for the one contact it names. */
  lemma OpenAdded(b: Book, before: Amounts, out: Amounts, open: map<Key, Pair>, j: nat, item: OpenItem)
    requires j < |b.keys| && OpenSummed(b, before, out, open, j) && OpenItemOf(b, b.keys[j]) == Some(item)
    ensures OpenSummed(b, before, out, AddOpen(open, item.contact, OpenPart(before, item), OpenPart(out, item)), j + 1)
  {
    var open', m := AddOpen(open, item.contact, OpenPart(before, item), OpenPart(out, item)), j + 1;
    forall c ensures OpenSummedFor(b, before, out, open', m, c) {
      assert OpenSummedFor(b, before, out, open, j, c);
      OpenTermOf(b, before, b.keys[j], item, c);
      OpenTermOf(b, out, b.keys[j], item, c);
      AddedOpen(open, item.contact, OpenPart(before, item), OpenPart(out, item), c);
      OpenSummedForNext(b, before, out, open, open', j, c);
    }
  }

  lemma OpenFoundStays(b: Book, before: Amounts, was: Amounts, out: Amounts, open: map<Key, Pair>)
    requires Grew(before, was, out) && OpenWritten(b, before, was) && OpenFound(b, before, was, open)
    ensures OpenFound(b, before, out, open)
  {
    forall c ensures OpenSummedFor(b, before, out, open, |b.keys|, c) {
      assert OpenSummedFor(b, before, was, open, |b.keys|, c);
      OpenTermsStable(b, before, was, out, c);
    }
  }

  // ---- Rollups ----

  predicate IsRollup(t: Rollup) { t == CUSTOMERS || t == ACCOUNTS }

  /** The least depth the tree under `k` fits in. */
  ghost function Height(b: Book, k: Key, n: nat): (h: nat)
    requires Within(b, k, n)
    ensures h <= n && Within(b, k, h) && (h > 0 ==> !Within(b, k, h - 1))
  {
    if n > 0 && Within(b, k, n - 1) then Height(b, k, n - 1) else n
  }

  lemma {:induction false} WithinMonotone(b: Book, k: Key, n: nat, m: nat)
    requires Within(b, k, n) && n <= m
    ensures Within(b, k, m)
    decreases n
  {
    forall c | c in b.entities && IsChild(b, k, c) ensures m > 0 && Within(b, c, m - 1) {
      WithinMonotone(b, c, n - 1, m - 1);
    }
  }

  /** The children of `k` among the first `n` entities. */
  function ChildKeys(b: Book, k: Key, n: nat): (s: seq<Key>)
    requires n <= |b.keys|
    ensures forall c :: c in s ==> IsChild(b, k, c)
  {
    if n == 0 then []
    else
      var s := ChildKeys(b, k, n - 1);
      if IsChild(b, k, b.keys[n - 1]) then s + [b.keys[n - 1]] else s
  }

  /** What each of some children hands up. */
  function KidValues(b: Book, fields: set<Field>, am: Amounts, t: Rollup, kids: seq<Key>): (s: seq<real>)
    ensures |s| == |kids|
  {
    seq(|kids|, i requires 0 <= i < |kids| => Carried(b, fields, am, t, kids[i], MAX_DEPTH))
  }

  lemma {:induction false} KidSum(b: Book, fields: set<Field>, am: Amounts, t: Rollup, k: Key, n: nat)
    requires n <= |b.keys|
    ensures Sum(KidValues(b, fields, am, t, ChildKeys(b, k, n))) == SumTo(CarriedUp(b, fields, am, t, k, MAX_DEPTH), n)
  {
    if n > 0 {
      KidSum(b, fields, am, t, k, n - 1);
      var kids, c := ChildKeys(b, k, n - 1), b.keys[n - 1];
      if IsChild(b, k, c) {
        assert KidValues(b, fields, am, t, kids + [c]) ==
            KidValues(b, fields, am, t, kids) + [Carried(b, fields, am, t, c, MAX_DEPTH)];
        SumSnoc(KidValues(b, fields, am, t, kids), Carried(b, fields, am, t, c, MAX_DEPTH));
      }
    }
  }

  lemma {:induction false} SumOfZeros(s: seq<real>, n: nat)
    requires n <= |s| && forall j :: 0 <= j < n ==> s[j] == 0.0
    ensures SumTo(s, n) == 0.0
  {
    if n > 0 { SumOfZeros(s, n - 1); }
  }

  /** In a tree of height `n` it does not matter how much further down one looks. */
  lemma {:induction false} CarriedFuel(b: Book, fields: set<Field>, am: Amounts, t: Rollup, k: Key, n: nat, m: nat)
    requires Within(b, k, n) && n <= m
    ensures Carried(b, fields, am, t, k, m) == Carried(b, fields, am, t, k, n)
    decreases n, 0
  {
    if Head(k, t.total) !in fields && n < m {
      if n == 0 {
        SumOfZeros(CarriedUp(b, fields, am, t, k, m - 1), |b.keys|);
      } else {
        CarriedUpFuel(b, fields, am, t, k, n - 1, m - 1);
      }
    }
  }

  lemma {:induction false} CarriedUpFuel(b: Book, fields: set<Field>, am: Amounts, t: Rollup, k: Key, n: nat, m: nat)
    requires Within(b, k, n + 1) && n <= m
    ensures CarriedUp(b, fields, am, t, k, m) == CarriedUp(b, fields, am, t, k, n)
    decreases n, 1
  {
    forall j | 0 <= j < |b.keys| && IsChild(b, k, b.keys[j])
      ensures Carried(b, fields, am, t, b.keys[j], m) == Carried(b, fields, am, t, b.keys[j], n)
    {
      CarriedFuel(b, fields, am, t, b.keys[j], n, m);
    }
  }

  lemma {:induction false} WrittenLess(b: Book, fields: set<Field>, out: Amounts, t: Rollup, k: Key, n: nat, m: nat)
    requires CarriedWritten(b, fields, out, t, k, m) && n <= m
    ensures CarriedWritten(b, fields, out, t, k, n)
    decreases n
  {
    if n > 0 && Head(k, t.total) !in fields {
      forall c | c in b.entities && IsChild(b, k, c) ensures CarriedWritten(b, fields, out, t, c, n - 1) {
        WrittenLess(b, fields, out, t, c, n - 1, m - 1);
      }
    }
  }

  ghost predicate IsOwn(t: Rollup, fld: Field) { fld.Head? && fld.key.kind == t.kind && fld.name == t.own }

  ghost predicate IsTotal(t: Rollup, fld: Field) { fld.Head? && fld.key.kind == t.kind && fld.name == t.total }

  /** Every entity's own figure is final before the rollup (customers), or is a scaled free amount once written
      (accounts). */
  ghost predicate OwnsReady(b: Book, before: Amounts, out: Amounts, t: Rollup, factor: Key -> real) {
    forall c :: c in b.entities && c.kind == t.kind && Head(c, t.own) in before ==>
      && (Head(c, t.own) in out ==> Whole(out[Head(c, t.own)]))
      && (t == CUSTOMERS ==> Head(c, t.own) in out)
      && (t == ACCOUNTS && Head(c, t.own) in out ==> LeafEq(before, out, Head(c, t.own), factor(c)))
  }

  ghost predicate TotalsWhole(out: Amounts, t: Rollup, done: map<Key, Pair>) {
    && (forall fld {:trigger Whole(out[fld])} :: fld in out && IsTotal(t, fld) ==> Whole(out[fld]))
    && (forall c {:trigger Whole(done[c].1)} :: c in done ==> Whole(done[c].1))
  }

  ghost predicate VisitDone(b: Book, before: Amounts, out: Amounts, t: Rollup, k: Key, pair: Pair, f: real) {
    && k in b.entities && k.kind == t.kind
    && RollupDone(b, before, out, t, k, f)
    && HandsUp(b, before, out, t, k, pair)
  }

  /** A visit comes to what the entity hands up, in the original and in the copy. */
  ghost predicate HandsUp(b: Book, before: Amounts, out: Amounts, t: Rollup, k: Key, pair: Pair) {
    && CarriedWritten(b, before.Keys, out, t, k, MAX_DEPTH)
    && pair == (Carried(b, before.Keys, before, t, k, MAX_DEPTH), Carried(b, before.Keys, out, t, k, MAX_DEPTH))
  }

  lemma VisitStays(b: Book, before: Amounts, was: Amounts, out: Amounts, t: Rollup, k: Key, pair: Pair, f: real)
    requires Grew(before, was, out) && VisitDone(b, before, was, t, k, pair, f)
    ensures VisitDone(b, before, out, t, k, pair, f)
  {
    RollupStable(b, before, was, out, t, k, f);
    CarriedStable(b, before, was, out, t, k, MAX_DEPTH);
  }

  /** Every entity in `done` is rolled up, and no other total is written. */
  ghost predicate Rolled(b: Book, before: Amounts, out: Amounts, t: Rollup, done: map<Key, Pair>, factor: Key -> real) {
    && VisitsDone(b, before, out, t, done, factor)
    && OnlyDone(out, t, done)
  }

  ghost predicate VisitsDone(b: Book, before: Amounts, out: Amounts, t: Rollup, done: map<Key, Pair>,
                             factor: Key -> real) {
    forall c :: c in done ==> VisitDone(b, before, out, t, c, done[c], factor(c))
  }

  ghost predicate OnlyDone(out: Amounts, t: Rollup, done: map<Key, Pair>) {
    forall fld :: fld in out && IsTotal(t, fld) ==> fld.key in done
  }

  lemma RolledStays(b: Book, before: Amounts, was: Amounts, out: Amounts, t: Rollup, done: map<Key, Pair>,
                    factor: Key -> real)
    requires Rolled(b, before, was, t, done, factor) && Grew(before, was, out)
    requires forall fld :: fld in out && fld !in was ==> !IsTotal(t, fld)
    ensures Rolled(b, before, out, t, done, factor)
  {
    forall c | c in done ensures VisitDone(b, before, out, t, c, done[c], factor(c)) {
      VisitStays(b, before, was, out, t, c, done[c], factor(c));
    }
  }

  /** What a finished visit of one entity adds. */
  lemma RolledNext(b: Book, before: Amounts, was: Amounts, out: Amounts, t: Rollup, done: map<Key, Pair>, k: Key,
                   pair: Pair, factor: Key -> real)
    requires Rolled(b, before, was, t, done, factor) && Grew(before, was, out)
    requires forall fld :: fld in out && fld !in was ==> fld == Head(k, t.total)
    requires VisitDone(b, before, out, t, k, pair, factor(k))
    ensures Rolled(b, before, out, t, done[k := pair], factor)
  {
    forall c | c in done ensures VisitDone(b, before, out, t, c, done[c], factor(c)) {
      VisitStays(b, before, was, out, t, c, done[c], factor(c));
    }
  }

  /** The children's pairs as they are added up. */
  ghost predicate KidsSummed(b: Book, before: Amounts, out: Amounts, t: Rollup, kids: seq<Key>, n: nat, done: map<Key,
                             Pair>, sum: Pair)
    requires n <= |kids|
  {
    && (forall i :: 0 <= i < n ==> kids[i] in done)
    && sum.0 == SumTo(KidValues(b, before.Keys, before, t, kids), n)
    && sum.1 == SumTo(KidValues(b, before.Keys, out, t, kids), n)
  }

  lemma KidsSummedNext(b: Book, before: Amounts, was: Amounts, out: Amounts, t: Rollup, kids: seq<Key>, i: nat,
                       done: map<Key, Pair>, done': map<Key, Pair>, sum: Pair, factor: Key -> real)
    requires i < |kids| && Grew(before, was, out) && KidsSummed(b, before, was, t, kids, i, done, sum)
    requires Rolled(b, before, was, t, done, factor) && Rolled(b, before, out, t, done', factor)
    requires (forall c :: c in done ==> c in done') && kids[i] in done'
    ensures KidsSummed(b, before, out, t, kids, i + 1, done', AddPair(sum, done'[kids[i]]))
  {
    KidsStay(b, before, was, out, t, kids, i, done, factor);
    RolledHandsUp(b, before, out, t, done', kids[i], factor);
    KidAdded(b, before, out, t, kids, i, sum, done'[kids[i]]);
  }

  lemma RolledHandsUp(b: Book, before: Amounts, out: Amounts, t: Rollup, done: map<Key, Pair>, c: Key,
                      factor: Key -> real)
    requires VisitsDone(b, before, out, t, done, factor) && c in done
    ensures HandsUp(b, before, out, t, c, done[c])
  {
    assert VisitDone(b, before, out, t, c, done[c], factor(c));
  }

  lemma KidAdded(b: Book, before: Amounts, out: Amounts, t: Rollup, kids: seq<Key>, i: nat, sum: Pair, pair: Pair)
    requires i < |kids| && HandsUp(b, before, out, t, kids[i], pair)
    requires sum.0 == SumTo(KidValues(b, before.Keys, before, t, kids), i)
    requires sum.1 == SumTo(KidValues(b, before.Keys, out, t, kids), i)
    ensures AddPair(sum, pair).0 == SumTo(KidValues(b, before.Keys, before, t, kids), i + 1)
    ensures AddPair(sum, pair).1 == SumTo(KidValues(b, before.Keys, out, t, kids), i + 1)
  {}

  lemma KidsStay(b: Book, before: Amounts, was: Amounts, out: Amounts, t: Rollup, kids: seq<Key>, n: nat,
                 done: map<Key, Pair>, factor: Key -> real)
    requires n <= |kids| && Grew(before, was, out) && Rolled(b, before, was, t, done, factor)
    requires forall j :: 0 <= j < n ==> kids[j] in done
    ensures SumTo(KidValues(b, before.Keys, out, t, kids), n) == SumTo(KidValues(b, before.Keys, was, t, kids), n)
  {
    forall j | 0 <= j < n
      ensures KidValues(b, before.Keys, out, t, kids)[j] == KidValues(b, before.Keys, was, t, kids)[j]
    {
      RolledHandsUp(b, before, was, t, done, kids[j], factor);
      CarriedStable(b, before, was, out, t, kids[j], MAX_DEPTH);
    }
    SumToAgrees(KidValues(b, before.Keys, out, t, kids), KidValues(b, before.Keys, was, t, kids), n);
  }

  lemma ScaledWhole(x: real, f: real)
    ensures Whole(Scaled(x, f))
  {
    WholeInt(Round(x * f));
    WholeInt(Round(x * f) + 1);
    WholeInt(Round(x * f) - 1);
  }

  lemma DerivedWhole(amount: real, newFormula: real, oldFormula: real, f: real)
    requires Whole(newFormula)
    ensures Whole(Derived(amount, newFormula, oldFormula, f))
  {
    WholeInt(Round((amount - oldFormula) * f));
    WholeAdd(newFormula, Residual(amount, oldFormula, f));
  }

  /** What holds between visits; `trees` says the entities of the kind form trees within the recursion limit, `once`
      that they do not run in circles. */
  ghost predicate RollReady(b: Book, before: Amounts, out: Amounts, t: Rollup, done: map<Key, Pair>,
                            factor: Key -> real,
                            trees: bool, once: bool) {
    && b.Valid() && IsRollup(t)
    && OwnsReady(b, before, out, t, factor)
    && TotalsWhole(out, t, done)
    && DoneWritten(before, out, t, done)
    && (trees ==> Rolled(b, before, out, t, done, factor))
    && (once ==> OnlyDone(out, t, done))
  }

  /** The figures of every finished entity are written. */
  ghost predicate DoneWritten(before: Amounts, out: Amounts, t: Rollup, done: map<Key, Pair>) {
    forall c :: c in done ==>
      && (Head(c, t.own) in before ==> Head(c, t.own) in out)
      && (Head(c, t.total) in before ==> Head(c, t.total) in out)
  }

  /** What a visit may change: own figures and totals of its kind. */
  ghost predicate OnlyRollup(was: Amounts, out: Amounts, t: Rollup) {
    && (forall fld :: fld in out && fld !in was ==> IsOwn(t, fld) || IsTotal(t, fld))
    && (forall fld :: fld in was ==> fld in out && (IsTotal(t, fld) || out[fld] == was[fld]))
  }

  ghost predicate DoneGrows(done: map<Key, Pair>, done': map<Key, Pair>) { forall c :: c in done ==> c in done' }

  /** A visit in a tree finishes entities below height `h` only. */
  ghost predicate DoneBelow(b: Book, done: map<Key, Pair>, done': map<Key, Pair>, h: nat) {
    forall c :: c in done' && c !in done ==> Within(b, c, h)
  }

  ghost predicate RollStep(b: Book, before: Amounts, was: Amounts, out: Amounts, t: Rollup, done: map<Key, Pair>,
                           done': map<Key, Pair>, h: nat, once: bool) {
    && OnlyRollup(was, out, t)
    && DoneGrows(done, done')
    && (once ==> Grew(before, was, out) && DoneBelow(b, done, done', h))
  }

  /** `k` heads a tree of height exactly `h`. */
  ghost predicate HasHeight(b: Book, k: Key, h: nat) { Within(b, k, h) && (h > 0 ==> !Within(b, k, h - 1)) }

  lemma DoneBelowNext(b: Book, done: map<Key, Pair>, had: map<Key, Pair>, done': map<Key, Pair>, g: nat, h: nat)
    requires DoneBelow(b, done, had, h) && DoneBelow(b, had, done', g) && g <= h
    ensures DoneBelow(b, done, done', h)
  {
    forall c | c in done' && c !in done ensures Within(b, c, h) {
      if c !in had { WithinMonotone(b, c, g, h); }
    }
  }

  lemma RollStepNext(b: Book, before: Amounts, start: Amounts, was: Amounts, out: Amounts, t: Rollup, done: map<Key,
                     Pair>, had: map<Key, Pair>, done': map<Key, Pair>, g: nat, h: nat, once: bool)
    requires RollStep(b, before, start, was, t, done, had, h, once) &&
        RollStep(b, before, was, out, t, had, done', g, once)
    requires once ==> g <= h
    ensures RollStep(b, before, start, out, t, done, done', h, once)
  {
    if once { DoneBelowNext(b, done, had, done', g, h); }
  }

  /** Writing an entity's own figure first adds nothing to what a visit may change. */
  lemma RollStepFrom(b: Book, before: Amounts, start: Amounts, owned: Amounts, out: Amounts, t: Rollup, done: map<Key,
                     Pair>, had: map<Key, Pair>, k: Key, g: nat, h: nat, once: bool)
    requires k.kind == t.kind && Grew(before, start, owned) && g <= h
    requires forall fld :: fld in owned && fld !in start ==> fld == Head(k, t.own)
    requires RollStep(b, before, owned, out, t, done, had, g, once)
    ensures RollStep(b, before, start, out, t, done, had, h, once)
  {
    if once { DoneBelowNext(b, done, done, had, g, h); }
  }

  lemma TotalsStay(was: Amounts, out: Amounts, t: Rollup, done: map<Key, Pair>)
    requires TotalsWhole(was, t, done)
    requires forall fld :: fld in out && IsTotal(t, fld) ==> fld in was && out[fld] == was[fld]
    ensures TotalsWhole(out, t, done)
  {
    forall fld | fld in out && IsTotal(t, fld) ensures Whole(out[fld]) {
      assert Whole(was[fld]);
    }
  }

  lemma TotalsNext(was: Amounts, out: Amounts, t: Rollup, done: map<Key, Pair>, k: Key, pair: Pair)
    requires TotalsWhole(was, t, done) && Whole(pair.1)
    requires forall fld :: fld in out && fld != Head(k, t.total) ==> fld in was && out[fld] == was[fld]
    requires Head(k, t.total) in out ==> out[Head(k, t.total)] == pair.1
    ensures TotalsWhole(out, t, done[k := pair])
  {
    forall fld | fld in out && IsTotal(t, fld) ensures Whole(out[fld]) {
      if fld != Head(k, t.total) { assert Whole(was[fld]); }
    }
  }

  /** Writing an entity's own figure disturbs nothing. */
  lemma OwnStays(b: Book, before: Amounts, was: Amounts, out: Amounts, t: Rollup, done: map<Key, Pair>, k: Key,
                 factor: Key -> real, trees: bool, once: bool)
    requires RollReady(b, before, was, t, done, factor, trees, once) && Grew(before, was, out) &&
        OwnsReady(b, before, out, t, factor)
    requires forall fld :: fld in out && fld !in was ==> fld == Head(k, t.own)
    ensures RollReady(b, before, out, t, done, factor, trees, once)
  {
    TotalsStay(was, out, t, done);
    if trees { RolledStays(b, before, was, out, t, done, factor); }
  }

  ghost predicate KidsReady(b: Book, kids: seq<Key>, kind: Kind, h: nat, once: bool) {
    forall c :: c in kids ==> c in b.entities && c.kind == kind && (once ==> h > 0 && Within(b, c, h - 1))
  }

  lemma KidsWithin(b: Book, k: Key, h: nat, once: bool)
    requires once ==> Within(b, k, h)
    ensures KidsReady(b, ChildKeys(b, k, |b.keys|), k.kind, h, once)
  {}

  /** The first `i` children have been visited from `done`, short of the recursion limit all to the end. */
  ghost predicate KidsVisited(kids: seq<Key>, i: nat, done: map<Key, Pair>, done': map<Key, Pair>, depth: nat)
    requires i <= |kids|
  {
    (i == 0 ==> done' == done) && (depth < MAX_DEPTH ==> forall j :: 0 <= j < i ==> kids[j] in done')
  }

  lemma KidsVisitedNext(kids: seq<Key>, i: nat, done: map<Key, Pair>, had: map<Key, Pair>, done': map<Key, Pair>,
                        depth: nat)
    requires i < |kids| && KidsVisited(kids, i, done, had, depth) && DoneGrows(had, done')
    requires depth < MAX_DEPTH ==> kids[i] in done'
    ensures KidsVisited(kids, i + 1, done, done', depth)
  {}

  lemma ChildrenWritten(b: Book, before: Amounts, was: Amounts, out: Amounts, t: Rollup, k: Key, had: map<Key, Pair>,
                        factor: Key -> real)
    requires b.Valid() && Grew(before, was, out) && Rolled(b, before, was, t, had, factor)
    requires forall c :: c in ChildKeys(b, k, |b.keys|) ==> c in had
    ensures forall c :: c in b.entities && IsChild(b, k, c) ==> CarriedWritten(b, before.Keys, out, t, c, MAX_DEPTH)
  {
    forall c | c in b.entities && IsChild(b, k, c) ensures CarriedWritten(b, before.Keys, out, t, c, MAX_DEPTH) {
      ChildListed(b, k, c);
      RolledHandsUp(b, before, was, t, had, c, factor);
      CarriedStable(b, before, was, out, t, c, MAX_DEPTH);
    }
  }

  /** What the children hand up as the equation adds it up. */
  lemma ChildrenSummed(b: Book, before: Amounts, was: Amounts, out: Amounts, t: Rollup, k: Key, had: map<Key, Pair>,
                       sum: Pair, factor: Key -> real)
    requires Grew(before, was, out) && Rolled(b, before, was, t, had, factor)
    requires KidsSummed(b, before, was, t, ChildKeys(b, k, |b.keys|), |ChildKeys(b, k, |b.keys|)|, had, sum)
    ensures sum.0 == Sum(CarriedUp(b, before.Keys, before, t, k, MAX_DEPTH))
    ensures sum.1 == Sum(CarriedUp(b, before.Keys, out, t, k, MAX_DEPTH))
  {
    var kids := ChildKeys(b, k, |b.keys|);
    KidsStay(b, before, was, out, t, kids, |kids|, had, factor);
    KidSum(b, before.Keys, before, t, k, |b.keys|);
    KidSum(b, before.Keys, out, t, k, |b.keys|);
  }

  /** What the entity itself hands up. */
  lemma HandedUp(b: Book, before: Amounts, out: Amounts, t: Rollup, k: Key, newFormula: real, oldFormula: real,
                 pair: Pair)
    requires Within(b, k, MAX_DEPTH)
    requires newFormula == RollupFormula(b, before.Keys, out, t, k)
    requires oldFormula == RollupFormula(b, before.Keys, before, t, k)
    requires Head(k, t.own) in before ==> Head(k, t.own) in out
    requires if Head(k, t.total) in before then
        Head(k, t.total) in out && pair == (before[Head(k, t.total)], out[Head(k, t.total)])
      else pair == (oldFormula, newFormula)
    requires forall c :: c in b.entities && IsChild(b, k, c) ==> CarriedWritten(b, before.Keys, out, t, c, MAX_DEPTH)
    ensures HandsUp(b, before, out, t, k, pair)
  {
    if Head(k, t.total) !in before {
      CarriedUpFuel(b, before.Keys, before, t, k, MAX_DEPTH - 1, MAX_DEPTH);
      CarriedUpFuel(b, before.Keys, out, t, k, MAX_DEPTH - 1, MAX_DEPTH);
      forall c | c in b.entities && IsChild(b, k, c)
        ensures CarriedWritten(b, before.Keys, out, t, c, MAX_DEPTH - 1)
      {
        WrittenLess(b, before.Keys, out, t, c, MAX_DEPTH - 1, MAX_DEPTH);
      }
    }
  }

  /** The equation of a rollup, from what its children came to. */
  lemma VisitEq(b: Book, before: Amounts, was: Amounts, out: Amounts, t: Rollup, k: Key, newFormula: real,
                oldFormula: real, sum: Pair, pair: Pair, had: map<Key, Pair>, factor: Key -> real)
    requires k in b.entities && k.kind == t.kind && b.Valid() && Grew(before, was, out) && Within(b, k, MAX_DEPTH)
    requires newFormula == Get(out, Head(k, t.own)) + sum.1 && oldFormula == Get(before, Head(k, t.own)) + sum.0
    requires Head(k, t.own) in before ==> Head(k, t.own) in out
    requires DerivedEq(before, out, Head(k, t.total), newFormula, oldFormula, factor(k))
    requires pair == if Head(k, t.total) in before then (before[Head(k, t.total)], Get(out, Head(k, t.total)))
                     else (oldFormula, newFormula)
    requires Rolled(b, before, was, t, had, factor)
    requires KidsSummed(b, before, was, t, ChildKeys(b, k, |b.keys|), |ChildKeys(b, k, |b.keys|)|, had, sum)
    ensures VisitDone(b, before, out, t, k, pair, factor(k))
  {
    KidsIn(b, before, was, t, ChildKeys(b, k, |b.keys|), had, sum);
    ChildrenWritten(b, before, was, out, t, k, had, factor);
    ChildrenSummed(b, before, was, out, t, k, had, sum, factor);
    RollupFrom(b, before, out, t, k, newFormula, oldFormula, factor(k));
    HandedUp(b, before, out, t, k, newFormula, oldFormula, pair);
  }

  lemma KidsIn(b: Book, before: Amounts, out: Amounts, t: Rollup, kids: seq<Key>, done: map<Key, Pair>, sum: Pair)
    requires KidsSummed(b, before, out, t, kids, |kids|, done, sum)
    ensures forall c :: c in kids ==> c in done
  {}

  lemma RollupFrom(b: Book, before: Amounts, out: Amounts, t: Rollup, k: Key, newFormula: real, oldFormula: real,
                   f: real)
    requires DerivedEq(before, out, Head(k, t.total), newFormula, oldFormula, f)
    requires newFormula == RollupFormula(b, before.Keys, out, t, k)
    requires oldFormula == RollupFormula(b, before.Keys, before, t, k)
    ensures RollupEq(b, before, out, t, k, f)
  {}

  lemma {:induction false} ChildListedIn(b: Book, k: Key, i: nat, n: nat)
    requires i < n <= |b.keys| && IsChild(b, k, b.keys[i])
    ensures b.keys[i] in ChildKeys(b, k, n)
  {
    if i < n - 1 { ChildListedIn(b, k, i, n - 1); }
  }

  lemma ChildListed(b: Book, k: Key, c: Key)
    requires b.Valid() && IsChild(b, k, c)
    ensures c in ChildKeys(b, k, |b.keys|)
  {
    assert c in b.keys;
    var i :| 0 <= i < |b.keys| && b.keys[i] == c;
    ChildListedIn(b, k, i, |b.keys|);
  }

  /** Nothing of `k` is done before its own turn ends. */
  lemma NotYetDone(b: Book, before: Amounts, start: Amounts, out: Amounts, t: Rollup, done: map<Key, Pair>,
                   had: map<Key, Pair>, k: Key, h: nat, factor: Key -> real, trees: bool)
    requires k !in done && k.kind == t.kind && HasHeight(b, k, h)
    requires RollReady(b, before, out, t, had, factor, trees, true)
    requires RollStep(b, before, start, out, t, done, had, if h > 0 then h - 1 else 0, true)
    requires h == 0 ==> had == done
    ensures k !in had && Head(k, t.total) !in out
  {
    assert IsTotal(t, Head(k, t.total));
  }

  lemma OwnsStay(b: Book, before: Amounts, was: Amounts, out: Amounts, t: Rollup, k: Key, factor: Key -> real)
    requires IsRollup(t) && OwnsReady(b, before, was, t, factor)
    requires forall fld :: fld != Head(k, t.total) ==> (fld in out <==> fld in was)
    requires forall fld :: fld in was && fld != Head(k, t.total) ==> out[fld] == was[fld]
    ensures OwnsReady(b, before, out, t, factor)
  {}

  /** Only `total` is (re)written. */
  ghost predicate OnlyTotal(before: Amounts, was: Amounts, out: Amounts, total: Field) {
    && out.Keys <= before.Keys
    && (forall fld :: fld in out && fld != total ==> fld in was)
    && (forall fld :: fld in was ==> fld in out && (fld == total || out[fld] == was[fld]))
  }

  lemma RollStepTotal(b: Book, before: Amounts, start: Amounts, was: Amounts, out: Amounts, t: Rollup, done: map<Key,
                      Pair>, had: map<Key, Pair>, k: Key, pair: Pair, h: nat, once: bool)
    requires k.kind == t.kind && RollStep(b, before, start, was, t, done, had, h, once)
    requires OnlyTotal(before, was, out, Head(k, t.total))
    requires once ==> Head(k, t.total) !in was && Within(b, k, h)
    ensures RollStep(b, before, start, out, t, done, had[k := pair], h, once)
  {}

  /** What writing a total keeps between visits. */
  lemma FigureKeeps(b: Book, before: Amounts, was: Amounts, out: Amounts, t: Rollup, had: map<Key, Pair>, k: Key,
                    pair: Pair,
                    factor: Key -> real, once: bool)
    requires IsRollup(t) && OwnsReady(b, before, was, t, factor) && TotalsWhole(was, t, had) &&
        DoneWritten(before, was, t, had)
    requires once ==> OnlyDone(was, t, had)
    requires OnlyTotal(before, was, out, Head(k, t.total)) && Whole(pair.1)
    requires Head(k, t.total) in out ==> out[Head(k, t.total)] == pair.1
    requires Head(k, t.own) in before ==> Head(k, t.own) in was
    requires Head(k, t.total) in before ==> Head(k, t.total) in out
    ensures OwnsReady(b, before, out, t, factor) && TotalsWhole(out, t, had[k := pair]) &&
        DoneWritten(before, out, t, had[k := pair])
    ensures once ==> OnlyDone(out, t, had[k := pair])
  {
    OwnsStay(b, before, was, out, t, k, factor);
    TotalsNext(was, out, t, had, k, pair);
  }

  /** A finished visit leaves what holds between visits. */
  lemma FigureDone(b: Book, before: Amounts, was: Amounts, out: Amounts, t: Rollup, had: map<Key, Pair>, k: Key,
                   newFormula: real, oldFormula: real, sum: Pair, pair: Pair, factor: Key -> real, trees: bool,
                       once: bool)
    requires k in b.entities && k.kind == t.kind && RollReady(b, before, was, t, had, factor, trees, once)
    requires OnlyTotal(before, was, out, Head(k, t.total)) && Whole(pair.1)
    requires newFormula == Get(was, Head(k, t.own)) + sum.1 && oldFormula == Get(before, Head(k, t.own)) + sum.0
    requires Head(k, t.own) in before ==> Head(k, t.own) in was
    requires DerivedEq(before, out, Head(k, t.total), newFormula, oldFormula, factor(k))
    requires pair == if Head(k, t.total) in before then (before[Head(k, t.total)], Get(out, Head(k, t.total)))
                     else (oldFormula, newFormula)
    requires trees ==> Head(k, t.total) !in was && Within(b, k, MAX_DEPTH)
    requires trees ==> KidsSummed(b, before, was, t, ChildKeys(b, k, |b.keys|), |ChildKeys(b, k, |b.keys|)|, had, sum)
    ensures RollReady(b, before, out, t, had[k := pair], factor, trees, once)
  {
    FigureKeeps(b, before, was, out, t, had, k, pair, factor, once);
    if trees {
      VisitEq(b, before, was, out, t, k, newFormula, oldFormula, sum, pair, had, factor);
      RolledNext(b, before, was, out, t, had, k, pair, factor);
    }
  }
}
