/** The rules of a line document: exactly when scrubbing keeps each of them, told from the original and the
    document's factor. */
module ScrubLines {
  import opened Cents
  import opened Wrappers
  import opened FixtureBook
  import opened FixtureRules
  import opened ScrubSpec
  import opened ScrubForecast
  import opened ScrubSteps
  import opened ScrubWhole
  import Allocate

  // ---- The key step: a zero residual stays a zero residual ----

  lemma ZeroResidual(amount: real, newFormula: real, f: real)
    ensures Derived(amount, newFormula, amount, f) == newFormula
  {
    RoundUnique(0.0, 0);
    assert (amount - amount) * f == 0.0;
  }

  lemma ResidualOdd(x: real, y: real, f: real)
    ensures Residual(x, y, f) == -Residual(y, x, f)
  {
    assert (x - y) * f == -((y - x) * f);
    RoundOdd((y - x) * f);
  }

  lemma {:induction false} NudgeKeepsFormula(qty: real, amount: real, residual: real, price: real, step: real, n: nat)
    ensures var (p, a) := NudgePrice(qty, amount, residual, price, step, n); a == Extended(qty, p) + residual
    decreases n
  {
    if n > 0 { NudgeKeepsFormula(qty, amount, residual, price + step, step, n - 1); }
  }

  /** A line whose amount was quantity times price has such an amount afterwards. */
  lemma RepriceConsistent(qty: real, price: real, step: real, f: real)
    requires step > 0.0
    ensures var (p, a) := Reprice(qty, Extended(qty, price), price, step, f); a == Extended(qty, p)
  {
    var amount := Extended(qty, price);
    ZeroResidual(amount, 0.0, f);
    NudgeKeepsFormula(qty, amount, 0.0, Quantize(price * f, step), if price >= 0.0 then step else -step, 5);
  }

  lemma ItemKept(b: Book, before: Amounts, after: Amounts, amount: Field, price: Field, qty: Option<real>, f: real)
    requires after.Keys == before.Keys && ItemEq(b, before, after, amount, price, qty, f)
    requires QtyPriceHolds(before, amount, price, qty)
    ensures QtyPriceHolds(after, amount, price, qty)
  {
    if Priced(before, amount, price, qty) {
      RepriceConsistent(qty.value, before[price], PriceStep(b, price), f);
    }
  }

  // ---- The conditions ----

  /** With nothing applied, a zero base has to come out as a zero base. */
  predicate ZeroBaseKept(b: Book, before: Amounts, k: Key, f: real) {
    Apps(b, before.Keys, k) == [] && Base(before, k) == 0.0 ==> BaseNew(b, before, k, f) == 0.0
  }

  /** A figure that is stated keeps its rule when what the scrubber adds up beyond the rule comes out as if it were
      one amount to scale; one that is not stated reads as nothing, so the rule has to come to nothing. */
  predicate LinePreservable(b: Book, before: Amounts, k: Key, r: Check, f: real)
    requires k in b.entities
  {
    var lines, taxes := b.Lines(k), b.TaxLines(k);
    match r
    case SubtotalLine(i) =>
      i < |lines| && lines[i].detail.SubTotal? ==>
        if LineAmount(k, i) in before then LaterLeavesNew(b, before, k, i, f) == AsOne(LaterLeaves(b, before, k, i), f)
        else SumTo(LeavesNew(b, before, k, f), i) == 0.0
    case DiscountLine(i) =>
      i < |lines| && lines[i].detail.Discount? && lines[i].percent.Some? ==>
        var percent := lines[i].percent.value;
        if LineAmount(k, i) in before then
          PercentGapNew(b, before, k, percent, f) == AsOne(PercentGap(b, before, k, percent), f)
        else PercentOf(Sum(LeavesNew(b, before, k, f)), percent) == 0.0
    case GroupLine(i) =>
      i < |lines| && lines[i].detail.Group? && LineAmount(k, i) !in before ==> Sum(SubsNew(b, before, k, i, f)) == 0.0
    case TaxBaseIs(i) =>
      i < |taxes| && TaxBase(k, i) in before ==> TaxableGapNew(b, before, k, f) == AsOne(TaxableGap(b, before, k), f)
    case TaxLineIs(i) =>
      i < |taxes| && TaxBase(k, i) in before && taxes[i].percent.Some? && TaxAmount(k, i) !in before ==>
        PercentOf(TaxBaseNew(b, before, k, i, f), taxes[i].percent.value) == 0.0
    case TotalIs =>
      Head(k, TotalAmt) in before ==>
        LeafGapNew(b, before, k, f) + UncheckedTaxNew(b, before, k, f)
        == AsOne(LeafGap(b, before, k) + UncheckedTax(b, before, k), f)
    case BalanceIs => Head(k, TotalAmt) in before && Head(k, Balance) in before ==> ZeroBaseKept(b, before, k, f)
    case RemainingCreditIs =>
      Head(k, TotalAmt) in before && Head(k, RemainingCredit) in before ==> ZeroBaseKept(b, before, k, f)
    case _ => true
  }

  // ---- Figures that follow a formula ----

  lemma ResidualAsOne(amount: real, formula: real, f: real)
    ensures Residual(amount, formula, f) == -AsOne(formula - amount, f)
  {
    assert (amount - formula) * f == -((formula - amount) * f);
    RoundOdd((formula - amount) * f);
  }

  /** A derived figure keeps a rule exactly when what the scrubber's formula counts beyond
      the rule's (`oldGap`, `newGap`) comes out as if it were one amount to scale. */
  lemma KeptExactly(before: Amounts, after: Amounts, fld: Field, newFormula: real, oldFormula: real, newGap: real,
                    oldGap: real, f: real)
    requires fld in before && DerivedEq(before, after, fld, newFormula, oldFormula, f)
    requires before[fld] == oldFormula - oldGap
    ensures after[fld] == newFormula - newGap <==> newGap == AsOne(oldGap, f)
  {
    ResidualAsOne(before[fld], oldFormula, f);
    assert oldFormula - before[fld] == oldGap;
  }

  lemma SubtotalKept(b: Book, before: Amounts, after: Amounts, k: Key, i: nat, f: real)
    requires k in b.entities && after.Keys == before.Keys && LinesEq(b, before, after, k, f)
    requires LineCheckHolds(b, before, k, SubtotalLine(i))
    ensures LineCheckHolds(b, after, k, SubtotalLine(i)) <==> LinePreservable(b, before, k, SubtotalLine(i), f)
  {
    LeavesForeseen(b, before, after, k, f);
    if i < |b.Lines(k)| && b.Lines(k)[i].detail.SubTotal? && LineAmount(k, i) in before {
      assert SummaryLineEq(b, before, after, k, i, f);
      KeptExactly(before, after, LineAmount(k, i), LeafSum(b, after, k), LeafSum(b, before, k),
                  LaterLeaves(b, after, k, i), LaterLeaves(b, before, k, i), f);
    }
  }

  lemma DiscountKept(b: Book, before: Amounts, after: Amounts, k: Key, i: nat, f: real)
    requires k in b.entities && after.Keys == before.Keys && LinesEq(b, before, after, k, f)
    requires LineCheckHolds(b, before, k, DiscountLine(i))
    ensures LineCheckHolds(b, after, k, DiscountLine(i)) <==> LinePreservable(b, before, k, DiscountLine(i), f)
  {
    var lines := b.Lines(k);
    LeavesForeseen(b, before, after, k, f);
    if i < |lines| && lines[i].detail.Discount? && lines[i].percent.Some? && LineAmount(k, i) in before {
      var percent := lines[i].percent.value;
      assert SummaryLineEq(b, before, after, k, i, f);
      KeptExactly(before, after, LineAmount(k, i), PercentOf(LeafSum(b, after, k), percent),
                  PercentOf(LeafSum(b, before, k), percent), PercentGap(b, after, k, percent),
                  PercentGap(b, before, k, percent), f);
    }
  }

  lemma GroupKept(b: Book, before: Amounts, after: Amounts, k: Key, i: nat, f: real)
    requires k in b.entities && after.Keys == before.Keys && LinesEq(b, before, after, k, f)
    requires LineCheckHolds(b, before, k, GroupLine(i))
    ensures LineCheckHolds(b, after, k, GroupLine(i)) <==> LinePreservable(b, before, k, GroupLine(i), f)
  {
    if i < |b.Lines(k)| && b.Lines(k)[i].detail.Group? {
      assert LeafLineEq(b, before, after, k, i, f);
      SubsForeseen(b, before, after, k, i, f);
      if LineAmount(k, i) in before {
        ZeroResidual(before[LineAmount(k, i)], Sum(SubValues(b, after, k, i)), f);
      }
    }
  }

  lemma ItemsKept(b: Book, before: Amounts, after: Amounts, k: Key, r: Check, f: real)
    requires k in b.entities && after.Keys == before.Keys && LinesEq(b, before, after, k, f)
    requires r.LineQtyPrice? || r.SubQtyPrice?
    requires LineCheckHolds(b, before, k, r)
    ensures LineCheckHolds(b, after, k, r)
  {
    var lines := b.Lines(k);
    match r
    case LineQtyPrice(i) =>
      if i < |lines| && lines[i].detail.Plain? {
        assert LeafLineEq(b, before, after, k, i, f);
        ItemKept(b, before, after, LineAmount(k, i), LinePrice(k, i), lines[i].qty, f);
      }
    case SubQtyPrice(i, j) =>
      if i < |lines| && lines[i].detail.Group? && j < |lines[i].subs| {
        assert LeafLineEq(b, before, after, k, i, f) && SubEq(b, before, after, k, i, j, f);
        ItemKept(b, before, after, SubAmount(k, i, j), SubPrice(k, i, j), lines[i].subs[j].qty, f);
      }
  }

  lemma TaxBaseKept(b: Book, before: Amounts, after: Amounts, k: Key, i: nat, f: real)
    requires k in b.entities && after.Keys == before.Keys && LinesEq(b, before, after, k, f) &&
        TaxEq(b, before, after, k, f)
    requires LineCheckHolds(b, before, k, TaxBaseIs(i))
    ensures LineCheckHolds(b, after, k, TaxBaseIs(i)) <==> LinePreservable(b, before, k, TaxBaseIs(i), f)
  {
    if i < |b.TaxLines(k)| && TaxBase(k, i) in before {
      assert TaxLineEq(b, before, after, k, i, f);
      LeavesForeseen(b, before, after, k, f);
      KeptExactly(before, after, TaxBase(k, i), TaxableSum(b, after, k), TaxableSum(b, before, k),
                  TaxableGap(b, after, k), TaxableGap(b, before, k), f);
    }
  }

  lemma TaxLineKept(b: Book, before: Amounts, after: Amounts, k: Key, i: nat, f: real)
    requires k in b.entities && after.Keys == before.Keys && LinesEq(b, before, after, k, f) &&
        TaxEq(b, before, after, k, f)
    requires LineCheckHolds(b, before, k, TaxLineIs(i))
    ensures LineCheckHolds(b, after, k, TaxLineIs(i)) <==> LinePreservable(b, before, k, TaxLineIs(i), f)
  {
    var taxes := b.TaxLines(k);
    if i < |taxes| && TaxBase(k, i) in before && taxes[i].percent.Some? {
      assert TaxLineEq(b, before, after, k, i, f);
      TaxForeseen(b, before, after, k, f);
      if TaxAmount(k, i) in before {
        ZeroResidual(before[TaxAmount(k, i)], PercentOf(after[TaxBase(k, i)], taxes[i].percent.value), f);
      }
    }
  }

  lemma TotalTaxKept(b: Book, before: Amounts, after: Amounts, k: Key, f: real)
    requires k in b.entities && after.Keys == before.Keys && TaxEq(b, before, after, k, f)
    requires LineCheckHolds(b, before, k, TotalTaxIs)
    ensures LineCheckHolds(b, after, k, TotalTaxIs)
  {
    if TotalTax(k) in before { ZeroResidual(before[TotalTax(k)], Sum(TaxValues(b, after, k)), f); }
  }

  lemma TotalKept(b: Book, before: Amounts, after: Amounts, k: Key, f: real)
    requires k in b.entities && after.Keys == before.Keys && LineDocEq(b, before, after, k, f)
    requires LineCheckHolds(b, before, k, TotalIs)
    ensures LineCheckHolds(b, after, k, TotalIs) <==> LinePreservable(b, before, k, TotalIs, f)
  {
    LeavesForeseen(b, before, after, k, f);
    TaxForeseen(b, before, after, k, f);
    if Head(k, TotalAmt) in before {
      KeptExactly(before, after, Head(k, TotalAmt), TotalFormula(b, after, k), TotalFormula(b, before, k),
                  LeafGap(b, after, k) + UncheckedTax(b, after, k), LeafGap(b, before, k) + UncheckedTax(b, before, k),
                  f);
    }
  }

  // ---- Applications and balances ----

  /** The payers' rewritten lines add up to exactly what is applied to a document, unless
      nothing pays it and it had nothing to pay. */
  lemma AppliedTotal(b: Book, before: Amounts, after: Amounts, k: Key, f: real)
    requires after.Keys == before.Keys && LineDocEq(b, before, after, k, f) && BalanceEq(b, before, after, k, f)
    requires Whole(Base(after, k))
    ensures Apps(b, before.Keys, k) != [] ==> Applied(b, after, k) == TargetApplied(b, before, after, k, f)
    ensures Applied(b, after, k) == TargetApplied(b, before, after, k, f) <==> ZeroBaseKept(b, before, k, f)
  {
    BaseForeseen(b, before, after, k, f);
    AppliedSums(b, before, after, k, f);
  }

  lemma AppliedSums(b: Book, before: Amounts, after: Amounts, k: Key, f: real)
    requires after.Keys == before.Keys && BalanceEq(b, before, after, k, f) && Whole(Base(after, k))
    ensures Apps(b, before.Keys, k) != [] ==> Applied(b, after, k) == TargetApplied(b, before, after, k, f)
    ensures Applied(b, after, k) == TargetApplied(b, before, after, k, f) <==>
            (Apps(b, before.Keys, k) == [] && Base(before, k) == 0.0 ==> Base(after, k) == 0.0)
  {
    AppliedNewWhole(Applied(b, before, k), Base(before, k), Base(after, k), f);
    if Apps(b, before.Keys, k) != [] {
      Allocate.AllocationSum(AppAmounts(before, Apps(b, before.Keys, k)), TargetApplied(b, before, after, k, f));
    }
  }

  /** The balance rule is kept exactly when a zero base with nothing applied comes out as one. */
  lemma BalanceRuleKept(b: Book, before: Amounts, after: Amounts, k: Key, f: real)
    requires k in b.entities && after.Keys == before.Keys
    requires LineDocEq(b, before, after, k, f) && BalanceEq(b, before, after, k, f)
    requires Whole(Base(after, k))
    requires Head(k, TotalAmt) in before && Head(k, Balance) in before && LineCheckHolds(b, before, k, BalanceIs)
    ensures LineCheckHolds(b, after, k, BalanceIs) <==> ZeroBaseKept(b, before, k, f)
  {
    AppliedTotal(b, before, after, k, f);
    NewBalance(b, before, after, k, f);
  }

  lemma DerivedKept(before: Amounts, after: Amounts, fld: Field, newFormula: real, oldFormula: real, f: real)
    requires fld in before && DerivedEq(before, after, fld, newFormula, oldFormula, f)
    requires before[fld] == oldFormula
    ensures after[fld] == newFormula
  {
    ZeroResidual(before[fld], newFormula, f);
  }

  lemma NewBalance(b: Book, before: Amounts, after: Amounts, k: Key, f: real)
    requires after.Keys == before.Keys && BalanceEq(b, before, after, k, f) && Head(k, Balance) in before
    requires before[Head(k, Balance)] == Base(before, k) - Applied(b, before, k)
    ensures after[Head(k, Balance)] == Base(after, k) - TargetApplied(b, before, after, k, f)
  {
    DerivedKept(before, after, Head(k, Balance), Base(after, k) - TargetApplied(b, before, after, k, f),
                Base(before, k) - Applied(b, before, k), f);
  }

  /** The remaining credit is carried over from the balance when there is one; the two
      residuals cancel because rounding is odd. */
  lemma RemainingCreditRuleKept(b: Book, before: Amounts, after: Amounts, k: Key, f: real)
    requires k in b.entities && after.Keys == before.Keys
    requires LineDocEq(b, before, after, k, f) && BalanceEq(b, before, after, k, f)
    requires Whole(Base(after, k))
    requires Head(k, TotalAmt) in before && Head(k, RemainingCredit) in before
    requires LineCheckHolds(b, before, k, RemainingCreditIs)
    ensures LineCheckHolds(b, after, k, RemainingCreditIs) <==> ZeroBaseKept(b, before, k, f)
  {
    AppliedTotal(b, before, after, k, f);
    NewCredit(b, before, after, k, f);
  }

  lemma NewCredit(b: Book, before: Amounts, after: Amounts, k: Key, f: real)
    requires after.Keys == before.Keys && BalanceEq(b, before, after, k, f) && Head(k, RemainingCredit) in before
    requires before[Head(k, RemainingCredit)] == Base(before, k) - Applied(b, before, k)
    ensures after[Head(k, RemainingCredit)] == Base(after, k) - TargetApplied(b, before, after, k, f)
  {
    var open := Base(after, k) - TargetApplied(b, before, after, k, f);
    var oldOpen := Base(before, k) - Applied(b, before, k);
    if Head(k, Balance) in before {
      CreditFollows(before, after, k, open, oldOpen, f);
    } else {
      DerivedKept(before, after, Head(k, RemainingCredit), open, oldOpen, f);
    }
  }

  lemma CreditFollows(before: Amounts, after: Amounts, k: Key, open: real, oldOpen: real, f: real)
    requires Head(k, Balance) in before && DerivedEq(before, after, Head(k, Balance), open, oldOpen, f)
    requires Head(k, RemainingCredit) in before && before[Head(k, RemainingCredit)] == oldOpen
    requires DerivedEq(before, after, Head(k, RemainingCredit), Get(after, Head(k, Balance)), before[Head(k, Balance)],
               f)
    ensures after[Head(k, RemainingCredit)] == open
  {
    CreditFromBalance(oldOpen, before[Head(k, Balance)], open, f);
  }

  /** The balance differs from what is open by some amount and the credit from the balance by the opposite. */
  lemma CreditFromBalance(credit: real, balance: real, open: real, f: real)
    ensures Derived(credit, Derived(balance, open, credit, f), balance, f) == open
  {
    ResidualOdd(balance, credit, f);
  }

  // ---- Every rule of a line document ----

  /** A rule that a line document keeps is kept after scrubbing exactly when its condition holds. */
  lemma LineRuleExactly(b: Book, before: Amounts, after: Amounts, k: Key, r: Check, f: real)
    requires k in b.entities && after.Keys == before.Keys
    requires LineDocEq(b, before, after, k, f) && BalanceEq(b, before, after, k, f) && Whole(Base(after, k))
    requires LineCheckHolds(b, before, k, r)
    ensures LineCheckHolds(b, after, k, r) <==> LinePreservable(b, before, k, r, f)
  {
    match r {
      case SubtotalLine(i) => SubtotalKept(b, before, after, k, i, f);
      case DiscountLine(i) => DiscountKept(b, before, after, k, i, f);
      case GroupLine(i) => GroupKept(b, before, after, k, i, f);
      case TaxBaseIs(i) => TaxBaseKept(b, before, after, k, i, f);
      case TaxLineIs(i) => TaxLineKept(b, before, after, k, i, f);
      case TotalTaxIs => TotalTaxKept(b, before, after, k, f);
      case TotalIs => TotalKept(b, before, after, k, f);
      case BalanceIs => BalanceKept(b, before, after, k, f);
      case RemainingCreditIs => CreditKept(b, before, after, k, f);
      case LineQtyPrice(_) => ItemsKept(b, before, after, k, r, f);
      case SubQtyPrice(_, _) => ItemsKept(b, before, after, k, r, f);
      case _ =>
    }
  }

  lemma BalanceKept(b: Book, before: Amounts, after: Amounts, k: Key, f: real)
    requires k in b.entities && after.Keys == before.Keys
    requires LineDocEq(b, before, after, k, f) && BalanceEq(b, before, after, k, f) && Whole(Base(after, k))
    requires LineCheckHolds(b, before, k, BalanceIs)
    ensures LineCheckHolds(b, after, k, BalanceIs) <==> LinePreservable(b, before, k, BalanceIs, f)
  {
    if Head(k, TotalAmt) in before && Head(k, Balance) in before { BalanceRuleKept(b, before, after, k, f); }
  }

  lemma CreditKept(b: Book, before: Amounts, after: Amounts, k: Key, f: real)
    requires k in b.entities && after.Keys == before.Keys
    requires LineDocEq(b, before, after, k, f) && BalanceEq(b, before, after, k, f) && Whole(Base(after, k))
    requires LineCheckHolds(b, before, k, RemainingCreditIs)
    ensures LineCheckHolds(b, after, k, RemainingCreditIs) <==> LinePreservable(b, before, k, RemainingCreditIs, f)
  {
    if Head(k, TotalAmt) in before && Head(k, RemainingCredit) in before {
      RemainingCreditRuleKept(b, before, after, k, f);
    }
  }

  // ---- Conditions that do not need the forecast ----

  predicate GroupsCarry(b: Book, fields: set<Field>, k: Key) {
    forall i: nat :: i < |b.Lines(k)| && b.Lines(k)[i].detail.Group? ==> LineAmount(k, i) in fields
  }

  predicate NoLeafFrom(b: Book, k: Key, i: nat) {
    forall j: nat :: i <= j < |b.Lines(k)| ==> !IsLeaf(b.Lines(k)[j])
  }

  predicate TaxStated(b: Book, fields: set<Field>, k: Key) {
    || k !in b.entities || b.entities[k].taxInclusive
    || TotalTax(k) in fields
    || (forall i: nat :: i < |b.TaxLines(k)| ==> TaxAmount(k, i) !in fields)
  }

  /** The usual case, told without working anything out: groups and the figure state their amounts, no leaf follows a
      subtotal, the tax is stated, and there is something to pay or something applied. */
  predicate PlainLine(b: Book, before: Amounts, k: Key, r: Check) {
    match r
    case SubtotalLine(i) => GroupsCarry(b, before.Keys, k) && LineAmount(k, i) in before && NoLeafFrom(b, k, i)
    case DiscountLine(i) => GroupsCarry(b, before.Keys, k) && LineAmount(k, i) in before
    case GroupLine(i) => LineAmount(k, i) in before
    case TaxBaseIs(_) => GroupsCarry(b, before.Keys, k)
    case TaxLineIs(i) => TaxAmount(k, i) in before
    case TotalIs => GroupsCarry(b, before.Keys, k) && TaxStated(b, before.Keys, k)
    case BalanceIs => Base(before, k) != 0.0 || Apps(b, before.Keys, k) != []
    case RemainingCreditIs => Base(before, k) != 0.0 || Apps(b, before.Keys, k) != []
    case _ => true
  }

  lemma NothingAsOne(f: real)
    ensures AsOne(0.0, f) == 0.0
  {
    assert 0.0 * f == 0.0;
    RoundUnique(0.0, 0);
  }

  lemma GroupsAgree(b: Book, before: Amounts, k: Key, f: real)
    requires GroupsCarry(b, before.Keys, k)
    ensures LineValues(b, before, k) == LeafValues(b, before, k)
    ensures TaxableLineValues(b, before, k) == TaxableValues(b, before, k)
    ensures CountedLeavesNew(b, before, k, f) == LeavesNew(b, before, k, f)
    ensures TaxableNew(b, before, k, f) == TaxableLeavesNew(b, before, k, f)
  {}

  lemma {:induction false} SumToZeros(s: seq<real>, i: nat, n: nat)
    requires i <= n <= |s| && forall j :: i <= j < n ==> s[j] == 0.0
    ensures SumTo(s, n) == SumTo(s, i)
  {
    if i < n { SumToZeros(s, i, n - 1); }
  }

  lemma StatedTax(b: Book, before: Amounts, k: Key, f: real)
    requires k in b.entities && TaxStated(b, before.Keys, k)
    ensures UncheckedTax(b, before, k) == 0.0 && UncheckedTaxNew(b, before, k, f) == 0.0
  {
    if b.entities[k].tax.Some? && !b.entities[k].taxInclusive && TotalTax(k) !in before {
      SumToZeros(TaxValues(b, before, k), 0, |b.TaxLines(k)|);
      SumToZeros(TaxesNew(b, before, k, f), 0, |b.TaxLines(k)|);
    }
  }

  /** In the usual case a rule is kept, whatever the factor. */
  lemma PlainLineKept(b: Book, before: Amounts, k: Key, r: Check, f: real)
    requires k in b.entities && PlainLine(b, before, k, r)
    ensures LinePreservable(b, before, k, r, f)
  {
    NothingAsOne(f);
    if r.SubtotalLine? || r.DiscountLine? || r.TaxBaseIs? || r.TotalIs? { GroupsAgree(b, before, k, f); }
    if r.SubtotalLine? && r.line < |b.Lines(k)| {
      SumToZeros(LeafValues(b, before, k), r.line, |b.Lines(k)|);
      SumToZeros(LeavesNew(b, before, k, f), r.line, |b.Lines(k)|);
    }
    if r.TotalIs? { StatedTax(b, before, k, f); }
  }
}
