/** What "internally consistent" means for a recorded book (`check_invariants`). */
module FixtureRules {
  import opened Cents
  import opened Wrappers
  import opened FixtureBook

  /** What is asked of an entity's own figures. */
  datatype Check =
    | SubtotalLine(line: nat)
    | DiscountLine(line: nat)
    | GroupLine(line: nat)
    | LineQtyPrice(line: nat)
    | SubQtyPrice(line: nat, sub: nat)
    | TaxBaseIs(line: nat)
    | TaxLineIs(line: nat)
    | TotalTaxIs
    | TotalIs
    | BalanceIs
    | RemainingCreditIs
    | DebitsEqualCredits
    | PaymentTotal
    | DepositLine(line: nat)
    | DepositTotal
    | ContactBalance

  datatype Rule =
    | Precision(field: Field)
    | RollupOf(key: Key, rollup: Rollup)
    | RuleOf(key: Key, check: Check)

  /** `amount == q2(qty * price)`, asked only where all three are there. */
  predicate QtyPriceHolds(am: Amounts, amount: Field, price: Field, qty: Option<real>) {
    amount in am && price in am && qty.Some? && qty.value != 0.0 ==> am[amount] == Extended(qty.value, am[price])
  }

  /** The tax a document's total includes. */
  function CheckedTax(b: Book, am: Amounts, k: Key): real
    requires k in b.entities
  {
    if b.entities[k].tax.None? || b.entities[k].taxInclusive then 0.0 else Get(am, TotalTax(k))
  }

  predicate LineCheckHolds(b: Book, am: Amounts, k: Key, r: Check)
    requires k in b.entities
  {
    var lines, taxes := b.Lines(k), b.TaxLines(k);
    match r
    case SubtotalLine(i) =>
      i < |lines| && lines[i].detail.SubTotal? ==> Get(am, LineAmount(k, i)) == SumTo(LeafValues(b, am, k), i)
    case DiscountLine(i) =>
      i < |lines| && lines[i].detail.Discount? && lines[i].percent.Some? ==>
        Get(am, LineAmount(k, i)) == PercentOf(Sum(LeafValues(b, am, k)), lines[i].percent.value)
    case GroupLine(i) =>
      i < |lines| && lines[i].detail.Group? ==> Get(am, LineAmount(k, i)) == Sum(SubValues(b, am, k, i))
    case LineQtyPrice(i) =>
      i < |lines| && lines[i].detail.Plain? ==> QtyPriceHolds(am, LineAmount(k, i), LinePrice(k, i), lines[i].qty)
    case SubQtyPrice(i, j) =>
      i < |lines| && lines[i].detail.Group? && j < |lines[i].subs| ==>
        QtyPriceHolds(am, SubAmount(k, i, j), SubPrice(k, i, j), lines[i].subs[j].qty)
    case TaxBaseIs(i) =>
      i < |taxes| && TaxBase(k, i) in am ==> am[TaxBase(k, i)] == Sum(TaxableValues(b, am, k))
    case TaxLineIs(i) =>
      i < |taxes| && TaxBase(k, i) in am && taxes[i].percent.Some? ==>
        Get(am, TaxAmount(k, i)) == PercentOf(am[TaxBase(k, i)], taxes[i].percent.value)
    case TotalTaxIs =>
      b.entities[k].tax.Some? && TotalTax(k) in am ==> am[TotalTax(k)] == Sum(TaxValues(b, am, k))
    case TotalIs =>
      Head(k, TotalAmt) in am ==>
        am[Head(k, TotalAmt)]
          == Sum(LeafValues(b, am, k)) - Sum(DiscountValues(b, am, k)) + CheckedTax(b, am, k)
    case BalanceIs =>
      Head(k, TotalAmt) in am && Head(k, Balance) in am ==>
        am[Head(k, Balance)] == Base(am, k) - Applied(b, am, k)
    case RemainingCreditIs =>
      Head(k, TotalAmt) in am && Head(k, RemainingCredit) in am ==>
        am[Head(k, RemainingCredit)] == Base(am, k) - Applied(b, am, k)
    case _ => true
  }

  /** Amounts are whole cents; prices keep their own decimal places. */
  predicate PrecisionHolds(am: Amounts, fld: Field) { fld in am && !IsPrice(fld) ==> Whole(am[fld]) }

  predicate RollupHolds(b: Book, am: Amounts, k: Key, t: Rollup) {
    (t == CUSTOMERS || t == ACCOUNTS) && k.kind == t.kind && Head(k, t.total) in am ==>
      am[Head(k, t.total)] == Get(am, Head(k, t.own)) + Sum(ChildTotals(b, am, t, k))
  }

  predicate CheckHolds(b: Book, am: Amounts, k: Key, r: Check)
    requires k in b.entities
  {
    var lines := b.Lines(k);
    match r
    case DebitsEqualCredits =>
      k.kind.JournalEntry? ==> Sum(SideValues(b, am, k, Debit)) == Sum(SideValues(b, am, k, Credit))
    case PaymentTotal =>
      IsPayer(k.kind) && Head(k, TotalAmt) in am ==>
        am[Head(k, TotalAmt)] == Sum(PayerValues(b, am, k)) + Get(am, Head(k, UnappliedAmt))
    case DepositLine(i) =>
      k.kind.Deposit? && i < |lines| && DepositTarget(b, am.Keys, k, i).Some? ==>
        Get(am, LineAmount(k, i)) == am[Head(DepositTarget(b, am.Keys, k, i).value, TotalAmt)]
    case DepositTotal =>
      k.kind.Deposit? && Head(k, TotalAmt) in am ==>
        am[Head(k, TotalAmt)] == Sum(DepositValues(b, am, k)) - Get(am, CashBack(k))
    case ContactBalance =>
      (k.kind.Customer? || k.kind.Vendor?) && Head(k, Balance) in am ==>
        am[Head(k, Balance)] == Sum(OpenTerms(b, am, k))
    case _ => IsLineDoc(k.kind) ==> LineCheckHolds(b, am, k, r)
  }

  /** Whether a book's amounts keep a rule. A rule that does not apply is kept. */
  predicate Holds(b: Book, am: Amounts, r: Rule) {
    match r
    case Precision(fld) => PrecisionHolds(am, fld)
    case RollupOf(k, t) => k in b.entities ==> RollupHolds(b, am, k, t)
    case RuleOf(k, check) => k in b.entities ==> CheckHolds(b, am, k, check)
  }
}
