/** Every figure but a price comes out of scrubbing in whole cents, whatever the original held. */
module ScrubWhole {
  import opened Cents
  import opened Wrappers
  import opened FixtureBook
  import opened ScrubSpec
  import opened ScrubSteps
  import Allocate

  predicate WholeAt(out: Amounts, fld: Field) { fld in out ==> Whole(out[fld]) }

  lemma LeafWhole(before: Amounts, out: Amounts, fld: Field, f: real)
    requires LeafEq(before, out, fld, f) && fld in before
    ensures WholeAt(out, fld)
  {
    ScaledWhole(before[fld], f);
  }

  lemma DeriveWhole(before: Amounts, out: Amounts, fld: Field, newFormula: real, oldFormula: real, f: real)
    requires DerivedEq(before, out, fld, newFormula, oldFormula, f) && fld in before && Whole(newFormula)
    ensures WholeAt(out, fld)
  {
    DerivedWhole(before[fld], newFormula, oldFormula, f);
  }

  lemma Q2IsWhole(x: real)
    ensures Whole(Q2(x))
  {
    WholeInt(Round(x));
  }

  lemma {:induction false} NudgeWhole(qty: real, amount: real, residual: real, price: real, step: real, n: nat)
    requires Whole(residual)
    ensures Whole(NudgePrice(qty, amount, residual, price, step, n).1)
    decreases n
  {
    Q2IsWhole(qty * price);
    WholeAdd(Extended(qty, price), residual);
    if n > 0 { NudgeWhole(qty, amount, residual, price + step, step, n - 1); }
  }

  lemma ItemWhole(b: Book, before: Amounts, out: Amounts, amount: Field, price: Field, qty: Option<real>, f: real)
    requires ItemEq(b, before, out, amount, price, qty, f) && out.Keys <= before.Keys
    ensures WholeAt(out, amount)
  {
    if Priced(before, amount, price, qty) {
      var step := PriceStep(b, price);
      var residual := Residual(before[amount], Extended(qty.value, before[price]), f);
      Q2IsWhole((before[amount] - Extended(qty.value, before[price])) * f);
      NudgeWhole(qty.value, before[amount], residual, Quantize(before[price] * f, step),
        if before[price] >= 0.0 then step else -step, 5);
    } else if amount in before {
      LeafWhole(before, out, amount, f);
    }
  }

  lemma SubsWhole(b: Book, before: Amounts, out: Amounts, k: Key, i: nat, f: real)
    requires out.Keys <= before.Keys && i < |b.Lines(k)|
    requires forall j: nat :: j < |b.Lines(k)[i].subs| ==> SubEq(b, before, out, k, i, j, f)
    ensures forall j: nat :: j < |b.Lines(k)[i].subs| ==> WholeAt(out, SubAmount(k, i, j))
    ensures Whole(Sum(SubValues(b, out, k, i)))
  {
    var subs := b.Lines(k)[i].subs;
    forall j: nat | j < |subs| ensures WholeAt(out, SubAmount(k, i, j)) && Whole(SubValues(b, out, k, i)[j]) {
      assert SubEq(b, before, out, k, i, j, f);
      ItemWhole(b, before, out, SubAmount(k, i, j), SubPrice(k, i, j), subs[j].qty, f);
    }
    SumToWhole(SubValues(b, out, k, i), |subs|);
  }

  lemma LeafLineWhole(b: Book, before: Amounts, out: Amounts, k: Key, i: nat, f: real)
    requires out.Keys <= before.Keys && i < |b.Lines(k)| && LeafLineEq(b, before, out, k, i, f) && IsLeaf(b.Lines(k)[i])
    ensures WholeAt(out, LineAmount(k, i)) && Whole(LineValue(b, out, k, i))
    ensures b.Lines(k)[i].detail.Group? ==>
      forall j: nat :: j < |b.Lines(k)[i].subs| ==> WholeAt(out, SubAmount(k, i, j))
  {
    if b.Lines(k)[i].detail.Group? {
      SubsWhole(b, before, out, k, i, f);
      if LineAmount(k, i) in before {
        DeriveWhole(before, out, LineAmount(k, i), Sum(SubValues(b, out, k, i)), Sum(SubValues(b, before, k, i)), f);
      }
    } else {
      ItemWhole(b, before, out, LineAmount(k, i), LinePrice(k, i), b.Lines(k)[i].qty, f);
    }
  }

  lemma LeafSumsWhole(b: Book, before: Amounts, out: Amounts, k: Key, f: real)
    requires out.Keys <= before.Keys && LinesEq(b, before, out, k, f)
    ensures Whole(LeafSum(b, out, k)) && Whole(TaxableSum(b, out, k))
  {
    forall i: nat | i < |b.Lines(k)| ensures Whole(LineValues(b, out, k)[i]) && Whole(TaxableLineValues(b, out, k)[i]) {
      if IsLeaf(b.Lines(k)[i]) { LeafLineWhole(b, before, out, k, i, f); }
    }
    SumToWhole(LineValues(b, out, k), |b.Lines(k)|);
    SumToWhole(TaxableLineValues(b, out, k), |b.Lines(k)|);
  }

  lemma LineWhole(b: Book, before: Amounts, out: Amounts, k: Key, i: nat, f: real)
    requires out.Keys <= before.Keys && LinesEq(b, before, out, k, f) && i < |b.Lines(k)|
    ensures WholeAt(out, LineAmount(k, i))
    ensures b.Lines(k)[i].detail.Group? ==>
      forall j: nat :: j < |b.Lines(k)[i].subs| ==> WholeAt(out, SubAmount(k, i, j))
  {
    var line := b.Lines(k)[i];
    LeafSumsWhole(b, before, out, k, f);
    assert LeafLineEq(b, before, out, k, i, f) && SummaryLineEq(b, before, out, k, i, f);
    if IsLeaf(line) {
      LeafLineWhole(b, before, out, k, i, f);
    } else if LineAmount(k, i) in before {
      if line.detail.SubTotal? {
        DeriveWhole(before, out, LineAmount(k, i), LeafSum(b, out, k), LeafSum(b, before, k), f);
      } else if line.percent.Some? {
        Q2IsWhole(LeafSum(b, out, k) * line.percent.value / 100.0);
        DeriveWhole(before, out, LineAmount(k, i),
          PercentOf(LeafSum(b, out, k), line.percent.value), PercentOf(LeafSum(b, before, k), line.percent.value), f);
      } else {
        LeafWhole(before, out, LineAmount(k, i), f);
      }
    }
  }

  lemma TaxLineWhole(b: Book, before: Amounts, out: Amounts, k: Key, i: nat, f: real)
    requires out.Keys <= before.Keys && i < |b.TaxLines(k)| && TaxLineEq(b, before, out, k, i, f)
    requires Whole(TaxableSum(b, out, k))
    ensures WholeAt(out, TaxBase(k, i)) && WholeAt(out, TaxAmount(k, i))
  {
    var percent := b.TaxLines(k)[i].percent;
    if TaxBase(k, i) in before {
      DeriveWhole(before, out, TaxBase(k, i), TaxableSum(b, out, k), TaxableSum(b, before, k), f);
    }
    if TaxAmount(k, i) in before {
      if TaxBase(k, i) in before && percent.Some? {
        Q2IsWhole(Get(out, TaxBase(k, i)) * percent.value / 100.0);
        DeriveWhole(before, out, TaxAmount(k, i),
          PercentOf(Get(out, TaxBase(k, i)), percent.value), PercentOf(before[TaxBase(k, i)], percent.value), f);
      } else {
        LeafWhole(before, out, TaxAmount(k, i), f);
      }
    }
  }

  lemma TaxesWhole(b: Book, before: Amounts, out: Amounts, k: Key, f: real)
    requires out.Keys <= before.Keys && TaxEq(b, before, out, k, f) && Whole(TaxableSum(b, out, k))
    ensures forall i: nat :: i < |b.TaxLines(k)| ==> WholeAt(out, TaxBase(k, i)) && WholeAt(out, TaxAmount(k, i))
    ensures k in b.entities && b.entities[k].tax.Some? ==> WholeAt(out, TotalTax(k))
    ensures Whole(TaxOf(b, out, k))
  {
    forall i: nat | i < |b.TaxLines(k)|
      ensures WholeAt(out, TaxBase(k, i)) && WholeAt(out, TaxAmount(k, i)) && Whole(TaxValues(b, out, k)[i])
    {
      assert TaxLineEq(b, before, out, k, i, f);
      TaxLineWhole(b, before, out, k, i, f);
    }
    SumToWhole(TaxValues(b, out, k), |b.TaxLines(k)|);
    if k in b.entities && b.entities[k].tax.Some? && TotalTax(k) in before {
      DeriveWhole(before, out, TotalTax(k), Sum(TaxValues(b, out, k)), Sum(TaxValues(b, before, k)), f);
    }
  }

  lemma TotalWhole(b: Book, before: Amounts, out: Amounts, k: Key, f: real)
    requires out.Keys <= before.Keys && LineDocEq(b, before, out, k, f)
    ensures WholeAt(out, Head(k, TotalAmt)) && WholeAt(out, Head(k, DepositPaid)) && Whole(Base(out, k))
  {
    LeafSumsWhole(b, before, out, k, f);
    TaxesWhole(b, before, out, k, f);
    forall i: nat | i < |b.Lines(k)| ensures Whole(DiscountValues(b, out, k)[i]) {
      LineWhole(b, before, out, k, i, f);
    }
    SumToWhole(DiscountValues(b, out, k), |b.Lines(k)|);
    WholeAdd(LeafSum(b, out, k), Sum(DiscountValues(b, out, k)));
    WholeAdd(LeafSum(b, out, k) - Sum(DiscountValues(b, out, k)), TaxOf(b, out, k));
    if Head(k, TotalAmt) in before {
      DeriveWhole(before, out, Head(k, TotalAmt), TotalFormula(b, out, k), TotalFormula(b, before, k), f);
    }
    if Head(k, DepositPaid) in before { LeafWhole(before, out, Head(k, DepositPaid), f); }
    WholeAdd(Get(out, Head(k, TotalAmt)), Get(out, Head(k, DepositPaid)));
  }

  lemma AppliedNewWhole(applied: real, baseOld: real, baseNew: real, f: real)
    requires Whole(baseNew)
    ensures Whole(AppliedNew(applied, baseOld, baseNew, f))
  {
    WholeAdd(baseNew, 1.0);
    if baseOld != 0.0 { Q2IsWhole(applied * baseNew / baseOld); }
    Q2IsWhole(applied * f);
  }

  /** Balance and remaining credit, and every line that pays the document. */
  lemma BalanceWhole(b: Book, before: Amounts, out: Amounts, k: Key, f: real)
    requires out.Keys <= before.Keys && BalanceEq(b, before, out, k, f) && Whole(Base(out, k))
    ensures WholeAt(out, Head(k, Balance)) && WholeAt(out, Head(k, RemainingCredit))
    ensures forall r :: r in Apps(b, before.Keys, k) ==> WholeAt(out, RefField(r))
  {
    var refs, applied := Apps(b, before.Keys, k), TargetApplied(b, before, out, k, f);
    var oldOpen, newOpen := Base(before, k) - Applied(b, before, k), Base(out, k) - applied;
    AppliedNewWhole(Applied(b, before, k), Base(before, k), Base(out, k), f);
    WholeAdd(Base(out, k), applied);
    if Head(k, Balance) in before { DeriveWhole(before, out, Head(k, Balance), newOpen, oldOpen, f); }
    if Head(k, RemainingCredit) in before {
      if Head(k, Balance) in before {
        DeriveWhole(before, out, Head(k, RemainingCredit), Get(out, Head(k, Balance)), before[Head(k, Balance)], f);
      } else {
        DeriveWhole(before, out, Head(k, RemainingCredit), newOpen, oldOpen, f);
      }
    }
    AppsWhole(out, AppAmounts(before, refs), refs, applied);
  }

  lemma AppsWhole(out: Amounts, parts: seq<real>, refs: seq<LineRef>, total: real)
    requires |parts| == |refs| && Whole(total) && AppAmounts(out, refs) == Allocate.Allocation(parts, total)
    ensures forall r :: r in refs ==> WholeAt(out, RefField(r))
  {
    forall r | r in refs ensures WholeAt(out, RefField(r)) {
      var i :| 0 <= i < |refs| && refs[i] == r;
      Allocate.AllocationNearShare(parts, total, i);
      assert AppAmounts(out, refs)[i] == Get(out, RefField(r));
    }
  }

  lemma JournalSums(debits: real, credits: real, f: real)
    ensures Whole(DebitNew(debits, f)) && Whole(Derived(credits, DebitNew(debits, f), debits, f))
  {
    WholeInt(Round(debits * f));
    WholeInt(Round(debits * f) + 1);
    DerivedWhole(credits, DebitNew(debits, f), debits, f);
  }

  lemma JournalSidesWhole(b: Book, before: Amounts, out: Amounts, k: Key, f: real)
    requires JournalEq(b, before, out, k, f)
    ensures forall i: nat :: OnSide(b, before.Keys, k, Debit, i) ==> WholeAt(out, LineAmount(k, i))
    ensures forall i: nat :: OnSide(b, before.Keys, k, Credit, i) ==> WholeAt(out, LineAmount(k, i))
  {
    var debits, credits := Sum(JournalSide(b, before.Keys, before, k, Debit)),
        Sum(JournalSide(b, before.Keys, before, k, Credit));
    JournalSums(debits, credits, f);
    SideWhole(b, before, out, k, Debit, DebitNew(debits, f));
    SideWhole(b, before, out, k, Credit, Derived(credits, DebitNew(debits, f), debits, f));
  }

  lemma JournalTotalWhole(b: Book, before: Amounts, out: Amounts, k: Key, f: real)
    requires out.Keys <= before.Keys && JournalEq(b, before, out, k, f)
    ensures WholeAt(out, Head(k, TotalAmt))
  {
    var debits := Sum(JournalSide(b, before.Keys, before, k, Debit));
    JournalSums(debits, 0.0, f);
    if Head(k, TotalAmt) in before { DeriveWhole(before, out, Head(k, TotalAmt), DebitNew(debits, f), debits, f); }
  }

  lemma FreeLineWhole(b: Book, before: Amounts, out: Amounts, k: Key, f: real, i: nat)
    requires JournalEq(b, before, out, k, f) && i < |b.Lines(k)| && b.Lines(k)[i].posting.None?
    requires LineAmount(k, i) in before
    ensures WholeAt(out, LineAmount(k, i))
  {
    LeafWhole(before, out, LineAmount(k, i), f);
  }

  /** Every line of a journal. */
  lemma JournalWhole(b: Book, before: Amounts, out: Amounts, k: Key, f: real)
    requires out.Keys <= before.Keys && JournalEq(b, before, out, k, f)
    ensures forall i: nat :: i < |b.Lines(k)| ==> WholeAt(out, LineAmount(k, i))
    ensures WholeAt(out, Head(k, TotalAmt))
  {
    JournalTotalWhole(b, before, out, k, f);
    forall i: nat | i < |b.Lines(k)| && LineAmount(k, i) in out ensures WholeAt(out, LineAmount(k, i)) {
      JournalLineWhole(b, before, out, k, f, i);
    }
  }

  lemma JournalLineWhole(b: Book, before: Amounts, out: Amounts, k: Key, f: real, i: nat)
    requires JournalEq(b, before, out, k, f) && i < |b.Lines(k)| && LineAmount(k, i) in before
    ensures WholeAt(out, LineAmount(k, i))
  {
    if b.Lines(k)[i].posting.None? {
      FreeLineWhole(b, before, out, k, f, i);
    } else {
      JournalSidesWhole(b, before, out, k, f);
      var side := b.Lines(k)[i].posting.value;
      assert OnSide(b, before.Keys, k, side, i) && (side == Debit || side == Credit);
    }
  }

  lemma SideWhole(b: Book, before: Amounts, out: Amounts, k: Key, side: Side, total: real)
    requires Whole(total)
    requires JournalSide(b, before.Keys, out, k, side)
          == Allocate.Allocation(JournalSide(b, before.Keys, before, k, side), total)
    ensures forall i: nat :: OnSide(b, before.Keys, k, side, i) ==> WholeAt(out, LineAmount(k, i))
  {
    var lines := SideLines(b, before.Keys, k, side, |b.Lines(k)|);
    forall i: nat | OnSide(b, before.Keys, k, side, i) ensures WholeAt(out, LineAmount(k, i)) {
      assert i in lines;
      var j :| 0 <= j < |lines| && lines[j] == i;
      Allocate.AllocationNearShare(JournalSide(b, before.Keys, before, k, side), total, j);
      assert LineAmounts(out, k, lines)[j] == Get(out, LineAmount(k, i));
    }
  }

  lemma SignedWhole(x: real, negative: bool)
    requires Whole(x)
    ensures Whole(Signed(x, negative))
  {
    WholeAdd(0.0, x);
  }

  lemma PayerWhole(b: Book, before: Amounts, out: Amounts, k: Key, f: real)
    requires out.Keys <= before.Keys && PayerEq(b, before, out, k, f)
    requires forall i: nat :: i < |b.Lines(k)| && IsApplication(b, before.Keys, k, i) ==> WholeAt(out, LineAmount(k, i))
    ensures forall i: nat :: i < |b.Lines(k)| ==> WholeAt(out, LineAmount(k, i))
    ensures WholeAt(out, Head(k, UnappliedAmt)) && WholeAt(out, Head(k, TotalAmt))
  {
    forall i: nat | i < |b.Lines(k)| ensures WholeAt(out, LineAmount(k, i)) && Whole(PayerValues(b, out, k)[i]) {
      if !IsApplication(b, before.Keys, k, i) && LineAmount(k, i) in before {
        LeafWhole(before, out, LineAmount(k, i), f);
      }
      SignedWhole(Get(out, LineAmount(k, i)), UsesCredit(b, k, i));
    }
    SumToWhole(PayerValues(b, out, k), |b.Lines(k)|);
    if Head(k, UnappliedAmt) in before { LeafWhole(before, out, Head(k, UnappliedAmt), f); }
    WholeAdd(Sum(PayerValues(b, out, k)), Get(out, Head(k, UnappliedAmt)));
    if Head(k, TotalAmt) in before {
      DeriveWhole(before, out, Head(k, TotalAmt),
        Sum(PayerValues(b, out, k)) + Get(out, Head(k, UnappliedAmt)),
        Sum(PayerValues(b, before, k)) + Get(before, Head(k, UnappliedAmt)), f);
    }
  }

  /** Every line of the deposit brings a transaction whose total is scrubbed before it. */
  predicate TargetsSettled(b: Book, fields: set<Field>, k: Key) {
    forall i: nat :: i < |b.Lines(k)| && DepositTarget(b, fields, k, i).Some? ==>
      IsSettled(DepositTarget(b, fields, k, i).value.kind)
  }

  lemma DepositWhole(b: Book, before: Amounts, out: Amounts, k: Key, f: real)
    requires out.Keys <= before.Keys && DepositEq(b, before, out, k, f) && TargetsSettled(b, before.Keys, k)
    requires forall t :: t in b.entities && IsSettled(t.kind) ==> WholeAt(out, Head(t, TotalAmt))
    ensures forall i: nat :: i < |b.Lines(k)| ==> WholeAt(out, LineAmount(k, i))
    ensures WholeAt(out, CashBack(k)) && WholeAt(out, Head(k, TotalAmt))
  {
    forall i: nat | i < |b.Lines(k)| ensures WholeAt(out, LineAmount(k, i)) && Whole(DepositValues(b, out, k)[i]) {
      assert DepositLineEq(b, before, out, k, i, f);
      if LineAmount(k, i) in before {
        match DepositTarget(b, before.Keys, k, i)
        case Some(t) =>
          DeriveWhole(before, out, LineAmount(k, i), out[Head(t, TotalAmt)], Get(before, Head(t, TotalAmt)), f);
        case None => LeafWhole(before, out, LineAmount(k, i), f);
      }
    }
    SumToWhole(DepositValues(b, out, k), |b.Lines(k)|);
    if CashBack(k) in before { LeafWhole(before, out, CashBack(k), f); }
    WholeAdd(Sum(DepositValues(b, out, k)), Get(out, CashBack(k)));
    if Head(k, TotalAmt) in before {
      DeriveWhole(before, out, Head(k, TotalAmt),
        Sum(DepositValues(b, out, k)) - Get(out, CashBack(k)),
        Sum(DepositValues(b, before, k)) - Get(before, CashBack(k)), f);
    }
  }

  lemma ContactWhole(b: Book, before: Amounts, out: Amounts, k: Key, f: real)
    requires out.Keys <= before.Keys && ContactEq(b, before, out, k, f)
    requires forall doc :: doc in b.entities && OpenItemOf(b, doc).Some? ==>
        WholeAt(out, OpenItemOf(b, doc).value.field)
    ensures WholeAt(out, Head(k, Balance))
  {
    forall j | 0 <= j < |b.keys| ensures Whole(OpenTerms(b, out, k)[j]) {
      if OpenItemOf(b, b.keys[j]).Some? {
        var item := OpenItemOf(b, b.keys[j]).value;
        SignedWhole(Get(out, item.field), item.negative);
      }
    }
    SumToWhole(OpenTerms(b, out, k), |b.keys|);
    if Head(k, Balance) in before {
      DeriveWhole(before, out, Head(k, Balance), Sum(OpenTerms(b, out, k)), Sum(OpenTerms(b, before, k)), f);
    }
  }

  lemma RestWhole(b: Book, before: Amounts, out: Amounts, fld: Field, f: real)
    requires fld in before && RestEq(b, before, out, fld, f) && !IsPrice(fld)
    ensures WholeAt(out, fld)
  {
    ScaledWhole(before[fld], f);
    if IsHome(b, before, fld) {
      var base, rate := HomeBase(fld).value, b.entities[fld.key].rate.value;
      var baseNew := if Stage(b, before, base) < REST then Get(out, base) else before[base];
      Q2IsWhole(rate * baseNew);
      DerivedWhole(before[fld], Extended(rate, baseNew), Extended(rate, before[base]), f);
    }
  }
}
