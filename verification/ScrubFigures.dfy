/** What scrubbing makes of every figure, told from the original figures and the factor: rounded where it is an amount
    of its own, by what it differed where it follows a formula, in proportion where it is a part. */
module ScrubFigures {
  import opened Cents
  import opened Wrappers
  import opened FixtureBook
  import opened ScrubSpec
  import opened ScrubForecast
  import opened ScrubSteps
  import opened ScrubWhole
  import opened ScrubStages
  import opened ScrubLines
  import opened ScrubTheorem
  import Allocate

  // ---- How a figure may be scaled ----

  /** `y` is `x` to the cent. */
  predicate ToCent(y: real, x: real) { y == Round(x) as real }

  /** An amount of its own: to the cent, and a cent further from nothing where that would leave it as it was. */
  predicate Scales(was: real, now: real, f: real) {
    if ToCent(was, was * f) && was != 0.0 then now == (if was > 0.0 then was + 1.0 else was - 1.0)
    else ToCent(now, was * f)
  }

  /** The debits of a journal: to the cent, and a cent more where that would leave them as they were. */
  predicate ScalesUp(was: real, now: real, f: real) {
    if ToCent(was, was * f) && was != 0.0 then now == was + 1.0 else ToCent(now, was * f)
  }

  /** What an amount differs from its formula by, scaled to the cent. */
  function Gap(amount: real, formula: real, f: real): real { Round((amount - formula) * f) as real }

  /** A figure differs from its formula by what it differed by, scaled to the cent. */
  predicate Follows(was: real, now: real, oldFormula: real, newFormula: real, f: real) {
    now == newFormula + Gap(was, oldFormula, f)
  }

  /** A part of `count`: whole cents, within a cent of its share. */
  predicate IsPart(was: real, now: real, oldTotal: real, newTotal: real, count: nat) {
    count > 0 && Whole(now) && -1.0 < now - Allocate.Share(was, oldTotal, newTotal, count) < 1.0
  }

  /** What is applied to a document: all of it stays all, nothing stays nothing, and part of it is its share to the
      cent, at least a cent and at least a cent short of all where there are two. */
  predicate AppliesAs(was: real, now: real, oldBase: real, newBase: real, f: real) {
    if was == oldBase then now == newBase
    else if was == 0.0 then now == 0.0
    else if oldBase == 0.0 then ToCent(now, was * f)
    else
      var share := Round(was * newBase / oldBase) as real;
      if 0.0 < was < oldBase && newBase >= 2.0 then
        now == (if share < 1.0 then 1.0 else if share > newBase - 1.0 then newBase - 1.0 else share)
      else now == share
  }

  /** `step` is one unit in the `n`th place after the cents. */
  predicate IsPlace(step: real, n: nat)
    decreases n
  {
    if n == 0 then step == 1.0 else IsPlace(10.0 * step, n - 1)
  }

  /** The price after so many moves. */
  function PriceAt(first: real, way: real, moves: nat): real { first + moves as real * way }

  /** The amount of a line at a price: quantity times price, and the scaled difference the line had. */
  function AmountAt(qty: real, residual: real, price: real): real { Round(qty * price) as real + residual }

  /** A price to its last place. */
  function ToPlace(price: real, f: real, step: real): real
    requires step > 0.0
  {
    Round(price * f / step) as real * step
  }

  /** What an amount differs from quantity times price by, scaled to the cent. */
  function Difference(qty: real, amount: real, price: real, f: real): real {
    Gap(amount, Round(qty * price) as real, f)
  }

  /** A price to its last place, moved on `j` times, each because the amount had come out as it was. */
  predicate RepricesBy(qty: real, amount: real, price: real, step: real, f: real, newPrice: real, newAmount: real,
                       j: nat)
    requires step > 0.0
  {
    var first, way, residual :=
      ToPlace(price, f, step), if price >= 0.0 then step else -step, Difference(qty, amount, price, f);
    && j <= 5 && newPrice == PriceAt(first, way, j) && newAmount == AmountAt(qty, residual, newPrice)
    && (amount == 0.0 ==> j == 0) && (amount != 0.0 && newAmount == amount ==> j == 5)
    && forall i: nat :: i < j ==> AmountAt(qty, residual, PriceAt(first, way, i)) == amount
  }

  /** A price alone: to its last place, and one more where that would leave it as it was. */
  predicate ScalesPrice(was: real, now: real, step: real, f: real)
    requires step > 0.0
  {
    var scaled := ToPlace(was, f, step);
    now == if scaled == was && was != 0.0 then was + step else scaled
  }

  // ---- The functions of the equations do so ----

  lemma ScaledScales(was: real, f: real)
    ensures Scales(was, Scaled(was, f), f)
  {}

  lemma DerivedFollows(was: real, oldFormula: real, newFormula: real, f: real)
    ensures Follows(was, Derived(was, newFormula, oldFormula, f), oldFormula, newFormula, f)
  {
    GapIsResidual(was, oldFormula, f);
  }

  lemma DebitScales(was: real, f: real)
    ensures ScalesUp(was, DebitNew(was, f), f)
  {}

  lemma AppliedScales(was: real, oldBase: real, newBase: real, f: real)
    ensures AppliesAs(was, AppliedNew(was, oldBase, newBase, f), oldBase, newBase, f)
  {}

  lemma PriceNext(price: real, way: real, moves: nat)
    ensures PriceAt(price + way, way, moves) == PriceAt(price, way, moves + 1)
    ensures PriceAt(price, way, 0) == price
  {}

  /** Nudging stops at the first price that changes the amount. */
  lemma {:induction false} NudgeTells(qty: real, amount: real, residual: real, price: real, way: real, n: nat)
      returns (j: nat)
    ensures var (p, a) := NudgePrice(qty, amount, residual, price, way, n);
            && j <= n && p == PriceAt(price, way, j) && a == AmountAt(qty, residual, p)
            && (amount == 0.0 ==> j == 0) && (amount != 0.0 && a == amount ==> j == n)
    ensures forall i: nat :: i < j ==> AmountAt(qty, residual, PriceAt(price, way, i)) == amount
    decreases n
  {
    PriceNext(price, way, 0);
    if n == 0 || amount == 0.0 || Extended(qty, price) + residual != amount {
      j := 0;
    } else {
      var k := NudgeTells(qty, amount, residual, price + way, way, n - 1);
      j := k + 1;
      PriceNext(price, way, k);
      forall i: nat | i < j
        ensures AmountAt(qty, residual, PriceAt(price, way, i)) == amount
      {
        if i > 0 { PriceNext(price, way, i - 1); }
      }
    }
  }

  lemma GapIsResidual(amount: real, formula: real, f: real)
    ensures Residual(amount, formula, f) == Gap(amount, formula, f)
  {}

  lemma SameStart(qty: real, amount: real, price: real, step: real, f: real)
    requires step > 0.0
    ensures Quantize(price * f, step) == ToPlace(price, f, step)
    ensures Residual(amount, Extended(qty, price), f) == Difference(qty, amount, price, f)
  {
    assert Extended(qty, price) == Round(qty * price) as real;
    GapIsResidual(amount, Extended(qty, price), f);
  }

  lemma RepriceTells(qty: real, amount: real, price: real, step: real, f: real) returns (j: nat)
    requires step > 0.0
    ensures var (p, a) := Reprice(qty, amount, price, step, f); RepricesBy(qty, amount, price, step, f, p, a, j)
  {
    SameStart(qty, amount, price, step, f);
    var way := if price >= 0.0 then step else -step;
    j := NudgeTells(qty, amount, Difference(qty, amount, price, f), ToPlace(price, f, step), way, 5);
  }

  lemma {:induction false} StepIsPlace(step: real, n: nat)
    requires step * Pow10(n) == 1.0
    ensures IsPlace(step, n)
    decreases n
  {
    if n > 0 {
      assert step * (10.0 * Pow10(n - 1)) == (10.0 * step) * Pow10(n - 1);
      StepIsPlace(10.0 * step, n - 1);
    }
  }

  lemma {:induction false} TensAdd(n: nat)
    ensures Pow10(n + 2) == 100.0 * Pow10(n)
  {
    assert Pow10(n + 2) == 10.0 * Pow10(n + 1);
  }

  /** A price moves by its last place: a cent, or less where it has more than two places. */
  lemma StepTells(b: Book, price: Field)
    ensures var places := if price in b.places then b.places[price] else 2;
            IsPlace(PriceStep(b, price), if places > 2 then places - 2 else 0)
  {
    var places := if price in b.places then b.places[price] else 2;
    var n := if places > 2 then places - 2 else 0;
    TensAdd(n);
    var p := Pow10(n);
    assert 100.0 / (100.0 * p) * p == 1.0;
    StepIsPlace(PriceStep(b, price), n);
  }

  // ---- Lines ----

  function Percentage(x: real, percent: real): real { Round(x * percent / 100.0) as real }

  /** A line with a quantity and a price is repriced; its amount is its own otherwise. */
  ghost predicate ItemTold(b: Book, before: Amounts, after: Amounts, amount: Field, price: Field, qty: Option<real>,
                           f: real)
    requires amount in before && after.Keys == before.Keys
  {
    if price in before && qty.Some? && qty.value != 0.0 then
      exists j: nat ::
        RepricesBy(qty.value, before[amount], before[price], PriceStep(b, price), f, after[price], after[amount], j)
    else Scales(before[amount], after[amount], f)
  }

  ghost predicate DocLineTold(b: Book, before: Amounts, after: Amounts, k: Key, i: nat, f: real)
    requires i < |b.Lines(k)| && LineAmount(k, i) in before && after.Keys == before.Keys
  {
    var line, was, now := b.Lines(k)[i], before[LineAmount(k, i)], after[LineAmount(k, i)];
    match line.detail
    case Plain => ItemTold(b, before, after, LineAmount(k, i), LinePrice(k, i), line.qty, f)
    case Group => Follows(was, now, Sum(SubValues(b, before, k, i)), Sum(SubValues(b, after, k, i)), f)
    case SubTotal => Follows(was, now, LeafSum(b, before, k), LeafSum(b, after, k), f)
    case Discount =>
      if line.percent.Some? then
        Follows(was, now, Percentage(LeafSum(b, before, k), line.percent.value),
                Percentage(LeafSum(b, after, k), line.percent.value), f)
      else Scales(was, now, f)
  }

  lemma ItemTells(b: Book, before: Amounts, after: Amounts, amount: Field, price: Field, qty: Option<real>, f: real)
    requires amount in before && after.Keys == before.Keys && ItemEq(b, before, after, amount, price, qty, f)
    ensures ItemTold(b, before, after, amount, price, qty, f)
  {
    if Priced(before, amount, price, qty) {
      var j := RepriceTells(qty.value, before[amount], before[price], PriceStep(b, price), f);
    } else {
      ScaledScales(before[amount], f);
    }
  }

  lemma DocLineTells(b: Book, before: Amounts, after: Amounts, k: Key, i: nat, f: real)
    requires i < |b.Lines(k)| && LineAmount(k, i) in before && after.Keys == before.Keys
    requires LinesEq(b, before, after, k, f)
    ensures DocLineTold(b, before, after, k, i, f)
  {
    var line, was := b.Lines(k)[i], before[LineAmount(k, i)];
    assert LeafLineEq(b, before, after, k, i, f) && SummaryLineEq(b, before, after, k, i, f);
    match line.detail
    case Plain => ItemTells(b, before, after, LineAmount(k, i), LinePrice(k, i), line.qty, f);
    case Group => DerivedFollows(was, Sum(SubValues(b, before, k, i)), Sum(SubValues(b, after, k, i)), f);
    case SubTotal => DerivedFollows(was, LeafSum(b, before, k), LeafSum(b, after, k), f);
    case Discount =>
      ScaledScales(was, f);
      if line.percent.Some? {
        var percent := line.percent.value;
        DerivedFollows(was, PercentOf(LeafSum(b, before, k), percent), PercentOf(LeafSum(b, after, k), percent), f);
      }
  }

  /** A line of a group that states an amount. */
  predicate IsSub(b: Book, before: Amounts, k: Key, i: nat, j: nat) {
    && i < |b.Lines(k)| && b.Lines(k)[i].detail.Group? && j < |b.Lines(k)[i].subs| && SubAmount(k, i, j) in before
  }

  ghost predicate SubTold(b: Book, before: Amounts, after: Amounts, k: Key, i: nat, j: nat, f: real)
    requires IsSub(b, before, k, i, j) && after.Keys == before.Keys
  {
    ItemTold(b, before, after, SubAmount(k, i, j), SubPrice(k, i, j), b.Lines(k)[i].subs[j].qty, f)
  }

  lemma SubTells(b: Book, before: Amounts, after: Amounts, k: Key, i: nat, j: nat, f: real)
    requires IsSub(b, before, k, i, j) && after.Keys == before.Keys && LinesEq(b, before, after, k, f)
    ensures SubTold(b, before, after, k, i, j, f)
  {
    assert LeafLineEq(b, before, after, k, i, f) && SubEq(b, before, after, k, i, j, f);
    ItemTells(b, before, after, SubAmount(k, i, j), SubPrice(k, i, j), b.Lines(k)[i].subs[j].qty, f);
  }

  // ---- Tax ----

  /** The base and the amount of a tax line. */
  predicate TaxLineTold(b: Book, before: Amounts, after: Amounts, k: Key, i: nat, f: real)
    requires i < |b.TaxLines(k)| && after.Keys == before.Keys
  {
    var base, amount, percent := TaxBase(k, i), TaxAmount(k, i), b.TaxLines(k)[i].percent;
    && (base in before ==> Follows(before[base], after[base], TaxableSum(b, before, k), TaxableSum(b, after, k), f))
    && (amount in before ==>
          if base in before && percent.Some? then
            Follows(before[amount], after[amount], Percentage(before[base], percent.value),
                    Percentage(after[base], percent.value), f)
          else Scales(before[amount], after[amount], f))
  }

  lemma TaxLineTells(b: Book, before: Amounts, after: Amounts, k: Key, i: nat, f: real)
    requires i < |b.TaxLines(k)| && after.Keys == before.Keys && TaxEq(b, before, after, k, f)
    ensures TaxLineTold(b, before, after, k, i, f)
  {
    var base, amount, percent := TaxBase(k, i), TaxAmount(k, i), b.TaxLines(k)[i].percent;
    assert TaxLineEq(b, before, after, k, i, f);
    if base in before { DerivedFollows(before[base], TaxableSum(b, before, k), TaxableSum(b, after, k), f); }
    if amount in before {
      ScaledScales(before[amount], f);
      if base in before && percent.Some? {
        DerivedFollows(before[amount], PercentOf(before[base], percent.value), PercentOf(after[base], percent.value),
                       f);
      }
    }
  }

  // ---- Documents ----

  /** Every line, tax and total of a line document. */
  ghost predicate DocTold(b: Book, before: Amounts, after: Amounts, k: Key, f: real)
    requires after.Keys == before.Keys
  {
    var total, paid, tax := Head(k, TotalAmt), Head(k, DepositPaid), TotalTax(k);
    && (forall i: nat :: i < |b.Lines(k)| && LineAmount(k, i) in before ==> DocLineTold(b, before, after, k, i, f))
    && (forall i: nat, j: nat :: IsSub(b, before, k, i, j) ==> SubTold(b, before, after, k, i, j, f))
    && (forall i: nat :: i < |b.TaxLines(k)| ==> TaxLineTold(b, before, after, k, i, f))
    && (tax in before && k in b.entities && b.entities[k].tax.Some? ==>
          Follows(before[tax], after[tax], Sum(TaxValues(b, before, k)), Sum(TaxValues(b, after, k)), f))
    && (total in before ==>
          Follows(before[total], after[total], TotalFormula(b, before, k), TotalFormula(b, after, k), f))
    && (paid in before ==> Scales(before[paid], after[paid], f))
  }

  lemma DocTells(b: Book, before: Amounts, after: Amounts, k: Key, f: real)
    requires after.Keys == before.Keys && LineDocEq(b, before, after, k, f)
    ensures DocTold(b, before, after, k, f)
  {
    var total, paid, tax := Head(k, TotalAmt), Head(k, DepositPaid), TotalTax(k);
    forall i: nat | i < |b.Lines(k)| && LineAmount(k, i) in before
      ensures DocLineTold(b, before, after, k, i, f)
    {
      DocLineTells(b, before, after, k, i, f);
    }
    forall i: nat, j: nat | IsSub(b, before, k, i, j)
      ensures SubTold(b, before, after, k, i, j, f)
    {
      SubTells(b, before, after, k, i, j, f);
    }
    forall i: nat | i < |b.TaxLines(k)|
      ensures TaxLineTold(b, before, after, k, i, f)
    {
      TaxLineTells(b, before, after, k, i, f);
    }
    if tax in before { DerivedFollows(before[tax], Sum(TaxValues(b, before, k)), Sum(TaxValues(b, after, k)), f); }
    if total in before { DerivedFollows(before[total], TotalFormula(b, before, k), TotalFormula(b, after, k), f); }
    if paid in before { ScaledScales(before[paid], f); }
  }

  // ---- Journals ----

  /** What the debits come to is scaled as one amount, and the credits follow them. */
  ghost predicate JournalTold(b: Book, before: Amounts, after: Amounts, k: Key, f: real)
    requires after.Keys == before.Keys
  {
    var was, now := Sum(SideValues(b, before, k, Debit)), Sum(SideValues(b, after, k, Debit));
    var total := Head(k, TotalAmt);
    && ScalesUp(was, now, f)
    && (HasCredits(b, before, k) ==>
          Follows(Sum(SideValues(b, before, k, Credit)), Sum(SideValues(b, after, k, Credit)), was, now, f))
    && (total in before ==> Follows(before[total], after[total], was, now, f))
    && forall i: nat :: i < |b.Lines(k)| && LineAmount(k, i) in before ==> JournalLineTold(b, before, after, k, i, f)
  }

  /** A posted line is a part of its side; any other is an amount of its own. */
  predicate JournalLineTold(b: Book, before: Amounts, after: Amounts, k: Key, i: nat, f: real)
    requires i < |b.Lines(k)| && LineAmount(k, i) in before && after.Keys == before.Keys
  {
    var was, now, side := before[LineAmount(k, i)], after[LineAmount(k, i)], b.Lines(k)[i].posting;
    if side.None? then Scales(was, now, f)
    else
      IsPart(was, now, Sum(SideValues(b, before, k, side.value)), Sum(SideValues(b, after, k, side.value)),
             |SideLines(b, before.Keys, k, side.value, |b.Lines(k)|)|)
  }

  /** A side is spread over its lines. */
  lemma SideSpreads(b: Book, before: Amounts, after: Amounts, k: Key, side: Side, total: real)
    requires after.Keys == before.Keys && Whole(total)
    requires JournalSide(b, before.Keys, after, k, side) ==
             Allocate.Allocation(JournalSide(b, before.Keys, before, k, side), total)
    ensures Sum(JournalSide(b, before.Keys, before, k, side)) == Sum(SideValues(b, before, k, side))
    ensures JournalSide(b, before.Keys, before, k, side) != [] ==> Sum(SideValues(b, after, k, side)) == total
    ensures JournalSide(b, before.Keys, before, k, side) == [] ==> Sum(SideValues(b, after, k, side)) == 0.0
    ensures forall i: nat :: OnSide(b, before.Keys, k, side, i) ==>
      IsPart(before[LineAmount(k, i)], after[LineAmount(k, i)], Sum(SideValues(b, before, k, side)),
             Sum(SideValues(b, after, k, side)), |SideLines(b, before.Keys, k, side, |b.Lines(k)|)|)
  {
    var n, lines := |b.Lines(k)|, SideLines(b, before.Keys, k, side, |b.Lines(k)|);
    var parts := JournalSide(b, before.Keys, before, k, side);
    SideSum(b, before.Keys, before, k, side, n);
    SideSum(b, before.Keys, after, k, side, n);
    if parts != [] { AllocationOf(parts, total); }
    forall i: nat | OnSide(b, before.Keys, k, side, i)
      ensures IsPart(before[LineAmount(k, i)], after[LineAmount(k, i)], Sum(SideValues(b, before, k, side)),
                     Sum(SideValues(b, after, k, side)), |lines|)
    {
      assert i in lines;
      var j :| 0 <= j < |lines| && lines[j] == i;
      Allocate.AllocationNearShare(parts, total, j);
      assert LineAmounts(after, k, lines)[j] == Get(after, LineAmount(k, i));
      assert LineAmounts(before, k, lines)[j] == Get(before, LineAmount(k, i));
    }
  }

  lemma JournalTells(b: Book, before: Amounts, after: Amounts, k: Key, f: real)
    requires after.Keys == before.Keys && JournalEq(b, before, after, k, f)
    ensures JournalTold(b, before, after, k, f)
  {
    var debits, credits := Sum(SideValues(b, before, k, Debit)), Sum(SideValues(b, before, k, Credit));
    var debitNew := DebitNew(debits, f);
    var creditNew := Derived(credits, debitNew, debits, f);
    SideSum(b, before.Keys, before, k, Debit, |b.Lines(k)|);
    SideSum(b, before.Keys, before, k, Credit, |b.Lines(k)|);
    JournalSums(debits, credits, f);
    SideSpreads(b, before, after, k, Debit, debitNew);
    SideSpreads(b, before, after, k, Credit, creditNew);
    DebitNewWhole(debits, f);
    if JournalSide(b, before.Keys, before, k, Debit) == [] { assert SumTo([], 0) == 0.0; }
    DebitScales(debits, f);
    DerivedFollows(credits, debits, debitNew, f);
    if Head(k, TotalAmt) in before { DerivedFollows(before[Head(k, TotalAmt)], debits, debitNew, f); }
    forall i: nat | i < |b.Lines(k)| && LineAmount(k, i) in before
      ensures JournalLineTold(b, before, after, k, i, f)
    {
      var side := b.Lines(k)[i].posting;
      if side.None? {
        ScaledScales(before[LineAmount(k, i)], f);
      } else {
        assert OnSide(b, before.Keys, k, side.value, i) && (side.value == Debit || side.value == Credit);
      }
    }
    if i :| 0 <= i < |b.Lines(k)| && b.Lines(k)[i].posting == Some(Credit) && LineAmount(k, i) in before {
      assert OnSide(b, before.Keys, k, Credit, i);
      assert i in SideLines(b, before.Keys, k, Credit, |b.Lines(k)|);
    }
  }

  // ---- What is applied, and what stays open ----

  /** What a document's payers apply to it, and its open figures. Where nobody pays a document that had nothing to pay
      the open figures take all of the new base as applied. */
  predicate BalanceTold(b: Book, before: Amounts, after: Amounts, k: Key, f: real)
    requires after.Keys == before.Keys
  {
    var refs, balance, credit := Apps(b, before.Keys, k), Head(k, Balance), Head(k, RemainingCredit);
    var was, now := Applied(b, before, k), Applied(b, after, k);
    var taken := if refs == [] && Base(before, k) == 0.0 then Base(after, k) else now;
    && (refs != [] ==> AppliesAs(was, now, Base(before, k), Base(after, k), f))
    && (forall r :: r in refs ==> ApplicationTold(before, after, r, was, now, |refs|))
    && (balance in before ==>
          Follows(before[balance], after[balance], Base(before, k) - was, Base(after, k) - taken, f))
    && (credit in before ==>
          if balance in before then Follows(before[credit], after[credit], before[balance], after[balance], f)
          else Follows(before[credit], after[credit], Base(before, k) - was, Base(after, k) - taken, f))
  }

  /** A line that pays a document is a part of what is applied to it. */
  predicate ApplicationTold(before: Amounts, after: Amounts, r: LineRef, was: real, now: real, count: nat)
    requires after.Keys == before.Keys
  {
    LineAmount(r.payer, r.line) in before ==>
      IsPart(before[LineAmount(r.payer, r.line)], after[LineAmount(r.payer, r.line)], was, now, count)
  }

  lemma ApplicationTells(b: Book, before: Amounts, after: Amounts, refs: seq<LineRef>, total: real, r: LineRef)
    requires after.Keys == before.Keys && Whole(total) && r in refs
    requires AppAmounts(after, refs) == Allocate.Allocation(AppAmounts(before, refs), total)
    ensures ApplicationTold(before, after, r, Sum(AppAmounts(before, refs)), total, |refs|)
  {
    var i :| 0 <= i < |refs| && refs[i] == r;
    Allocate.AllocationNearShare(AppAmounts(before, refs), total, i);
    assert AppAmounts(after, refs)[i] == Get(after, LineAmount(r.payer, r.line));
  }

  lemma BalanceTells(b: Book, before: Amounts, after: Amounts, k: Key, f: real)
    requires after.Keys == before.Keys && BalanceEq(b, before, after, k, f) && Whole(Base(after, k))
    ensures BalanceTold(b, before, after, k, f)
  {
    var refs, balance, credit := Apps(b, before.Keys, k), Head(k, Balance), Head(k, RemainingCredit);
    var was, target := Applied(b, before, k), TargetApplied(b, before, after, k, f);
    var open, newOpen := Base(before, k) - was, Base(after, k) - target;
    AppliedSums(b, before, after, k, f);
    AppliedScales(was, Base(before, k), Base(after, k), f);
    AppliedNewWhole(was, Base(before, k), Base(after, k), f);
    if refs == [] {
      assert was == 0.0 && Applied(b, after, k) == 0.0 by { assert SumTo([], 0) == 0.0; }
    }
    forall r | r in refs
      ensures ApplicationTold(before, after, r, was, target, |refs|)
    {
      ApplicationTells(b, before, after, refs, target, r);
    }
    if balance in before { DerivedFollows(before[balance], open, newOpen, f); }
    if credit in before {
      DerivedFollows(before[credit], open, newOpen, f);
      if balance in before { DerivedFollows(before[credit], before[balance], after[balance], f); }
    }
  }

  /** A line of a payment or bill payment that states an amount and links one document of the book with a total. */
  predicate PaysTo(b: Book, fields: set<Field>, r: LineRef, t: Key) {
    && r.payer in b.entities && (r.payer.kind == Payment || r.payer.kind == BillPayment)
    && r.line < |b.Lines(r.payer)| && b.Lines(r.payer)[r.line].linked == Some(t)
    && LineAmount(r.payer, r.line) in fields && t in b.entities && Head(t, TotalAmt) in fields
  }

  /** These lines and no others are applied to a document, each once. */
  lemma AppsTell(b: Book, fields: set<Field>, t: Key)
    requires b.Valid()
    ensures forall r :: r in Apps(b, fields, t) <==> PaysTo(b, fields, r, t)
    ensures var refs := Apps(b, fields, t); forall i, j :: 0 <= i < j < |refs| ==> refs[i] != refs[j]
  {
    AppsDistinct(b, fields, t, |b.keys|, 0);
    forall r
      ensures r in Apps(b, fields, t) <==> PaysTo(b, fields, r, t)
    {
      if PaysTo(b, fields, r, t) { AppListed(b, fields, r.payer, r.line); }
    }
  }

  /** What a document has open with a contact: a customer's invoice adds its balance, a credit memo and what a payment
      leaves unapplied take away; a vendor's bill adds, a vendor credit takes away; nothing else counts. */
  lemma OpenTermTells(b: Book, am: Amounts, doc: Key, id: string)
    requires doc in b.entities
    ensures var of := b.entities[doc].customer == Some(id);
            OpenTerm(b, am, doc, Key(Customer, id)) ==
            if !of then 0.0
            else if doc.kind == Invoice then Get(am, Head(doc, Balance))
            else if doc.kind == CreditMemo then -Get(am, Head(doc, Balance))
            else if doc.kind == Payment then -Get(am, Head(doc, UnappliedAmt))
            else 0.0
    ensures var of := b.entities[doc].vendor == Some(id);
            OpenTerm(b, am, doc, Key(Vendor, id)) ==
            if !of then 0.0
            else if doc.kind == Bill then Get(am, Head(doc, Balance))
            else if doc.kind == VendorCredit then -Get(am, Head(doc, Balance))
            else 0.0
  {}

  // ---- Payers, deposits, contacts ----

  /** A payer's lines that pay no document of the book, what it leaves unapplied, and its total. */
  predicate PayerTold(b: Book, before: Amounts, after: Amounts, k: Key, f: real)
    requires after.Keys == before.Keys
  {
    var total, left := Head(k, TotalAmt), Head(k, UnappliedAmt);
    && (forall i: nat :: i < |b.Lines(k)| && LineAmount(k, i) in before && !IsApplication(b, before.Keys, k, i) ==>
          Scales(before[LineAmount(k, i)], after[LineAmount(k, i)], f))
    && (left in before ==> Scales(before[left], after[left], f))
    && (total in before ==>
          Follows(before[total], after[total], Sum(PayerValues(b, before, k)) + Get(before, left),
                  Sum(PayerValues(b, after, k)) + Get(after, left), f))
  }

  lemma PayerTells(b: Book, before: Amounts, after: Amounts, k: Key, f: real)
    requires after.Keys == before.Keys && PayerEq(b, before, after, k, f)
    ensures PayerTold(b, before, after, k, f)
  {
    var total, left := Head(k, TotalAmt), Head(k, UnappliedAmt);
    forall i: nat | i < |b.Lines(k)| && LineAmount(k, i) in before && !IsApplication(b, before.Keys, k, i)
      ensures Scales(before[LineAmount(k, i)], after[LineAmount(k, i)], f)
    {
      ScaledScales(before[LineAmount(k, i)], f);
    }
    if left in before { ScaledScales(before[left], f); }
    if total in before {
      DerivedFollows(before[total], Sum(PayerValues(b, before, k)) + Get(before, left),
                     Sum(PayerValues(b, after, k)) + Get(after, left), f);
    }
  }

  /** A deposit's line follows the total it brings, if that was rewritten before it; cash back is an amount of its
      own. */
  predicate DepositTold(b: Book, before: Amounts, after: Amounts, k: Key, f: real)
    requires after.Keys == before.Keys
  {
    var total, back := Head(k, TotalAmt), CashBack(k);
    && (forall i: nat :: i < |b.Lines(k)| && LineAmount(k, i) in before ==> DepositLineTold(b, before, after, k, i, f))
    && (back in before ==> Scales(before[back], after[back], f))
    && (total in before ==>
          Follows(before[total], after[total], Sum(DepositValues(b, before, k)) - Get(before, back),
                  Sum(DepositValues(b, after, k)) - Get(after, back), f))
  }

  predicate DepositLineTold(b: Book, before: Amounts, after: Amounts, k: Key, i: nat, f: real)
    requires i < |b.Lines(k)| && LineAmount(k, i) in before && after.Keys == before.Keys
  {
    var was, now := before[LineAmount(k, i)], after[LineAmount(k, i)];
    match DepositTarget(b, before.Keys, k, i)
    case Some(t) =>
      var total := Head(t, TotalAmt);
      Follows(was, now, Get(before, total), Get(if ScrubbedBefore(b, t, k) then after else before, total), f)
    case None => Scales(was, now, f)
  }

  lemma DepositTells(b: Book, before: Amounts, after: Amounts, k: Key, f: real)
    requires after.Keys == before.Keys && DepositEq(b, before, after, k, f)
    ensures DepositTold(b, before, after, k, f)
  {
    var total, back := Head(k, TotalAmt), CashBack(k);
    forall i: nat | i < |b.Lines(k)| && LineAmount(k, i) in before
      ensures DepositLineTold(b, before, after, k, i, f)
    {
      var was := before[LineAmount(k, i)];
      assert DepositLineEq(b, before, after, k, i, f);
      match DepositTarget(b, before.Keys, k, i) {
        case Some(t) =>
          var brings := Head(t, TotalAmt);
          DerivedFollows(was, Get(before, brings), Get(if ScrubbedBefore(b, t, k) then after else before, brings), f);
        case None => ScaledScales(was, f);
      }
    }
    if back in before { ScaledScales(before[back], f); }
    if total in before {
      DerivedFollows(before[total], Sum(DepositValues(b, before, k)) - Get(before, back),
                     Sum(DepositValues(b, after, k)) - Get(after, back), f);
    }
  }

  predicate ContactTold(b: Book, before: Amounts, after: Amounts, k: Key, f: real)
    requires after.Keys == before.Keys
  {
    var balance := Head(k, Balance);
    balance in before ==>
      Follows(before[balance], after[balance], Sum(OpenTerms(b, before, k)), Sum(OpenTerms(b, after, k)), f)
  }

  /** Every figure of an entity that a step before the leftovers writes; of a tree, its own figure and its total. */
  ghost predicate EntityTold(b: Book, before: Amounts, after: Amounts, k: Key, f: real)
    requires after.Keys == before.Keys
  {
    && (IsLineDoc(k.kind) ==> DocTold(b, before, after, k, f) && BalanceTold(b, before, after, k, f))
    && (k.kind.JournalEntry? ==> JournalTold(b, before, after, k, f))
    && (IsPayer(k.kind) ==> PayerTold(b, before, after, k, f))
    && (k.kind.Deposit? ==> DepositTold(b, before, after, k, f))
    && (k.kind.Customer? || k.kind.Vendor? ==> ContactTold(b, before, after, k, f))
    && (k.kind.Customer? ==> TreeTold(b, before, after, CUSTOMERS, k, f))
    && (k.kind.Account? ==> TreeTold(b, before, after, ACCOUNTS, k, f))
  }

  /** A rollup follows what it adds up, where its entities form trees; an account's own figure is its own. */
  predicate TreeTold(b: Book, before: Amounts, after: Amounts, t: Rollup, k: Key, f: real)
    requires after.Keys == before.Keys
  {
    var own, total := Head(k, t.own), Head(k, t.total);
    && (k.kind.Account? && own in before ==> Scales(before[own], after[own], f))
    && (Forest(b, k.kind) && total in before ==>
          Follows(before[total], after[total], RollupFormula(b, before.Keys, before, t, k),
                  RollupFormula(b, before.Keys, after, t, k), f))
  }

  lemma TreeTells(b: Book, before: Amounts, after: Amounts, t: Rollup, k: Key, f: real)
    requires after.Keys == before.Keys && RolledUp(b, before, after, t, k, f) && t.kind == k.kind
    requires t == CUSTOMERS || t == ACCOUNTS
    ensures TreeTold(b, before, after, t, k, f)
  {
    var own, total := Head(k, t.own), Head(k, t.total);
    if own in before { ScaledScales(before[own], f); }
    if total in before {
      DerivedFollows(before[total], RollupFormula(b, before.Keys, before, t, k),
                     RollupFormula(b, before.Keys, after, t, k), f);
    }
  }

  lemma EntityTells(b: Book, before: Amounts, after: Amounts, k: Key, factor: Key -> real)
    requires k in b.entities && Scrubbed(b, before, after, factor)
    ensures EntityTold(b, before, after, k, factor(k))
  {
    var f := factor(k);
    assert EntityEq(b, before, after, k, factor(k));
    if IsLineDoc(k.kind) {
      DocTells(b, before, after, k, f);
      TotalWhole(b, before, after, k, f);
      BalanceTells(b, before, after, k, f);
    }
    if k.kind.JournalEntry? { JournalTells(b, before, after, k, f); }
    if IsPayer(k.kind) { PayerTells(b, before, after, k, f); }
    if k.kind.Deposit? { DepositTells(b, before, after, k, f); }
    if (k.kind.Customer? || k.kind.Vendor?) && Head(k, Balance) in before {
      DerivedFollows(before[Head(k, Balance)], Sum(OpenTerms(b, before, k)), Sum(OpenTerms(b, after, k)), f);
    }
    if k.kind.Customer? {
      assert RolledUp(b, before, after, CUSTOMERS, k, factor(k));
      TreeTells(b, before, after, CUSTOMERS, k, f);
    }
    if k.kind.Account? {
      assert RolledUp(b, before, after, ACCOUNTS, k, factor(k));
      TreeTells(b, before, after, ACCOUNTS, k, f);
    }
  }

  // ---- Figures no step has written ----

  /** A figure in the home currency follows the figure it restates at the recorded rate; that one is the new one if a
      step before has rewritten it. */
  predicate HomeTold(before: Amounts, after: Amounts, home: Field, base: Field, rate: real, isRewritten: bool, f: real)
    requires home in before && base in before && after.Keys == before.Keys
  {
    Follows(before[home], after[home], Round(rate * before[base]) as real,
            Round(rate * (if isRewritten then after[base] else before[base])) as real, f)
  }

  /** Totals that are rewritten before the leftovers. */
  predicate HasNewTotal(kind: Kind) { IsLineDoc(kind) || IsPayer(kind) || kind.JournalEntry? || kind.Deposit? }

  predicate HasNewBalance(kind: Kind) { IsLineDoc(kind) || kind.Customer? || kind.Vendor? }

  predicate LeftOverTold(b: Book, before: Amounts, after: Amounts, fld: Field, f: real)
    requires fld in before && after.Keys == before.Keys
  {
    var k := fld.key;
    var rate := if k in b.entities then b.entities[k].rate else None;
    if fld == Head(k, HomeTotalAmt) && rate.Some? && Head(k, TotalAmt) in before then
      HomeTold(before, after, fld, Head(k, TotalAmt), rate.value, HasNewTotal(k.kind), f)
    else if fld == Head(k, HomeBalance) && rate.Some? && Head(k, Balance) in before then
      HomeTold(before, after, fld, Head(k, Balance), rate.value, HasNewBalance(k.kind), f)
    else if fld.LinePrice? || fld.SubPrice? || (fld.Elsewhere? && fld.price) then
      ScalesPrice(before[fld], after[fld], PriceStep(b, fld), f)
    else Scales(before[fld], after[fld], f)
  }

  lemma BasesRewritten(b: Book, before: Amounts, k: Key)
    ensures Stage(b, before, Head(k, TotalAmt)) < REST <==> HasNewTotal(k.kind)
    ensures Stage(b, before, Head(k, Balance)) < REST <==> HasNewBalance(k.kind)
  {}

  lemma HomeFollows(before: Amounts, after: Amounts, home: Field, base: Field, rate: real, isRewritten: bool, f: real)
    requires home in before && base in before && after.Keys == before.Keys
    requires var baseNew := if isRewritten then Get(after, base) else before[base];
             after[home] == Derived(before[home], Extended(rate, baseNew), Extended(rate, before[base]), f)
    ensures HomeTold(before, after, home, base, rate, isRewritten, f)
  {
    var baseNew := if isRewritten then after[base] else before[base];
    DerivedFollows(before[home], Extended(rate, before[base]), Extended(rate, baseNew), f);
  }

  lemma HomeTells(b: Book, before: Amounts, after: Amounts, fld: Field, f: real)
    requires fld in before && after.Keys == before.Keys && RestEq(b, before, after, fld, f) && IsHome(b, before, fld)
    ensures LeftOverTold(b, before, after, fld, f)
  {
    var k, base, rate := fld.key, HomeBase(fld).value, b.entities[fld.key].rate.value;
    BasesRewritten(b, before, k);
    HomeFollows(before, after, fld, base, rate, Stage(b, before, base) < REST, f);
  }

  lemma LeftOverTells(b: Book, before: Amounts, after: Amounts, fld: Field, f: real)
    requires fld in before && after.Keys == before.Keys && RestEq(b, before, after, fld, f)
    ensures LeftOverTold(b, before, after, fld, f)
  {
    if IsHome(b, before, fld) {
      HomeTells(b, before, after, fld, f);
    } else {
      ScaledScales(before[fld], f);
    }
  }

  /** The figures that `EntityTold` speaks of. */
  predicate IsOfEntity(b: Book, before: Amounts, fld: Field) {
    var k := fld.key;
    match fld
    case LineAmount(_, i) =>
      i < |b.Lines(k)| && (IsLineDoc(k.kind) || IsPayer(k.kind) || k.kind.JournalEntry? || k.kind.Deposit?)
    case LinePrice(_, i) =>
      && IsLineDoc(k.kind) && i < |b.Lines(k)| && b.Lines(k)[i].detail.Plain?
      && IsRepriced(before, LineAmount(k, i), fld, b.Lines(k)[i].qty)
    case SubAmount(_, i, j) =>
      IsLineDoc(k.kind) && i < |b.Lines(k)| && b.Lines(k)[i].detail.Group? && j < |b.Lines(k)[i].subs|
    case SubPrice(_, i, j) =>
      && IsLineDoc(k.kind) && i < |b.Lines(k)| && b.Lines(k)[i].detail.Group? && j < |b.Lines(k)[i].subs|
      && IsRepriced(before, SubAmount(k, i, j), fld, b.Lines(k)[i].subs[j].qty)
    case TaxAmount(_, i) => IsLineDoc(k.kind) && i < |b.TaxLines(k)|
    case TaxBase(_, i) => IsLineDoc(k.kind) && i < |b.TaxLines(k)|
    case TotalTax(_) => IsLineDoc(k.kind) && k in b.entities && b.entities[k].tax.Some?
    case CashBack(_) => k.kind.Deposit?
    case Elsewhere(_, _, _) => false
    case Head(_, name) =>
      || (name.TotalAmt? && HasNewTotal(k.kind)) || (name.Balance? && HasNewBalance(k.kind))
      || ((name.DepositPaid? || name.RemainingCredit?) && IsLineDoc(k.kind)) || (name.UnappliedAmt? && IsPayer(k.kind))
      || (name.BalanceWithJobs? && k.kind.Customer?)
      || ((name.CurrentBalance? || name.CurrentBalanceWithSubAccounts?) && k.kind.Account?)
  }

  /** The price of a line that states an amount and a quantity other than nothing. */
  predicate IsRepriced(before: Amounts, amount: Field, price: Field, qty: Option<real>) {
    amount in before && price in before && qty.Some? && qty.value != 0.0
  }

  lemma RestIsLeft(b: Book, before: Amounts, fld: Field)
    ensures Stage(b, before, fld) == REST <==> !IsOfEntity(b, before, fld)
  {}

  /** All of it. */
  ghost predicate FiguresTold(b: Book, before: Amounts, after: Amounts, factor: Key -> real) {
    && after.Keys == before.Keys
    && (forall k :: k in b.entities ==> EntityTold(b, before, after, k, factor(k)))
    && forall fld :: fld in before && !IsOfEntity(b, before, fld) ==>
         LeftOverTold(b, before, after, fld, factor(fld.key))
  }

  /** In a scrubbed book every figure is what the original figures and the factors say. */
  lemma EveryFigure(b: Book, before: Amounts, after: Amounts, factor: Key -> real)
    requires Scrubbed(b, before, after, factor)
    ensures FiguresTold(b, before, after, factor)
  {
    forall k | k in b.entities
      ensures EntityTold(b, before, after, k, factor(k))
    {
      EntityTells(b, before, after, k, factor);
    }
    forall fld | fld in before && !IsOfEntity(b, before, fld)
      ensures LeftOverTold(b, before, after, fld, factor(fld.key))
    {
      RestIsLeft(b, before, fld);
      assert RestEq(b, before, after, fld, factor(fld.key));
      LeftOverTells(b, before, after, fld, factor(fld.key));
    }
  }

  /** Within half a cent of the factor's multiple, or a cent more than it was where that is nearest to its multiple. */
  predicate IsNearUp(was: real, now: real, f: real) {
    || -0.5 <= now - was * f <= 0.5
    || (was != 0.0 && now == was + 1.0 && -0.5 <= was - was * f <= 0.5)
  }

  /** Within half a cent of the other amount and the multiple of what it differed from that by. */
  predicate IsNearOther(was: real, now: real, other: real, newOther: real, f: real) {
    -0.5 <= now - newOther - (was - other) * f <= 0.5
  }

  lemma UpNear(was: real, now: real, f: real)
    requires ScalesUp(was, now, f)
    ensures IsNearUp(was, now, f)
  {}

  lemma FollowsNear(was: real, now: real, oldFormula: real, newFormula: real, f: real)
    requires Follows(was, now, oldFormula, newFormula, f)
    ensures IsNearOther(was, now, oldFormula, newFormula, f)
  {}

  /** A credit line states an amount. */
  predicate HasCredits(b: Book, before: Amounts, k: Key) {
    exists i :: 0 <= i < |b.Lines(k)| && b.Lines(k)[i].posting == Some(Credit) && LineAmount(k, i) in before
  }

  /** So the debits of a journal come to what they came to times the factor, within half a cent, or to a cent more than
      they were where rounding would have left them; and the credits differ from them by what they differed, scaled. */
  lemma JournalScales(b: Book, before: Amounts, after: Amounts, factor: Key -> real, k: Key)
    requires Scrubbed(b, before, after, factor) && k in b.entities && k.kind.JournalEntry?
    ensures IsNearUp(Sum(SideValues(b, before, k, Debit)), Sum(SideValues(b, after, k, Debit)), factor(k))
    ensures HasCredits(b, before, k) ==>
      IsNearOther(Sum(SideValues(b, before, k, Credit)), Sum(SideValues(b, after, k, Credit)),
                  Sum(SideValues(b, before, k, Debit)), Sum(SideValues(b, after, k, Debit)), factor(k))
  {
    var f := factor(k);
    var was, now := Sum(SideValues(b, before, k, Debit)), Sum(SideValues(b, after, k, Debit));
    assert EntityEq(b, before, after, k, factor(k));
    JournalTells(b, before, after, k, f);
    UpNear(was, now, f);
    if HasCredits(b, before, k) {
      FollowsNear(Sum(SideValues(b, before, k, Credit)), Sum(SideValues(b, after, k, Credit)), was, now, f);
    }
  }
}
