/** What scrubbing keeps. For every rule a book can keep there is a condition on the original and the factors alone
    under which the scrubbed book keeps it, and only then. */
module ScrubTheorem {
  import opened Cents
  import opened Wrappers
  import opened FixtureBook
  import opened FixtureRules
  import opened ScrubSpec
  import opened ScrubLines
  import opened ScrubTrees
  import opened ScrubDeposits
  import opened ScrubSteps
  import opened ScrubWhole
  import opened ScrubStages
  import Allocate

  // ---- The conditions ----

  /** When a rule that the original keeps stays kept, told from the original and the factors. Whole cents are in doubt
      for deposits only, and of the other rules those of line documents, deposit lines and rollups. */
  predicate Preservable(b: Book, before: Amounts, factor: Key -> real, r: Rule) {
    match r
    case Precision(fld) =>
      fld in before && !IsPrice(fld) && fld.key.kind.Deposit? ==> DepositWholePreservable(b, before, factor, fld)
    case RollupOf(k, t) => k in b.entities ==> RollupPreservable(b, before, factor, t, k)
    case RuleOf(k, check) => k in b.entities ==> CheckPreservable(b, before, factor, k, check)
  }

  predicate CheckPreservable(b: Book, before: Amounts, factor: Key -> real, k: Key, r: Check)
    requires k in b.entities
  {
    match r
    case DepositLine(i) => DepositLinePreservable(b, before, factor, k, i)
    case _ => IsLineDoc(k.kind) ==> LinePreservable(b, before, k, r, factor(k))
  }

  /** The usual case, told without working any figure out. */
  predicate Plain(b: Book, before: Amounts, r: Rule) {
    match r
    case Precision(fld) => fld.key.kind.Deposit? ==> TargetsSettled(b, before.Keys, fld.key)
    case RollupOf(k, t) => Forest(b, t.kind) && ChildrenCarry(b, before.Keys, t, k)
    case RuleOf(k, check) =>
      match check
      case DepositLine(i) =>
        && LineAmount(k, i) in before
        && (DepositTarget(b, before.Keys, k, i).Some? ==> IsSettled(DepositTarget(b, before.Keys, k, i).value.kind))
      case _ => IsLineDoc(k.kind) ==> PlainLine(b, before, k, check)
  }

  // ---- Journals ----

  lemma {:induction false} SideSum(b: Book, fields: set<Field>, am: Amounts, k: Key, side: Side, n: nat)
    requires n <= |b.Lines(k)| && am.Keys == fields
    ensures Sum(LineAmounts(am, k, SideLines(b, fields, k, side, n))) == SumTo(SideValues(b, am, k, side), n)
  {
    if n > 0 {
      SideSum(b, fields, am, k, side, n - 1);
      var shorter := SideLines(b, fields, k, side, n - 1);
      if SideLines(b, fields, k, side, n) != shorter {
        assert LineAmounts(am, k, shorter + [n - 1]) == LineAmounts(am, k, shorter) + [Get(am, LineAmount(k, n - 1))];
        SumSnoc(LineAmounts(am, k, shorter), Get(am, LineAmount(k, n - 1)));
      }
    }
  }

  lemma AllocationOf(parts: seq<real>, total: real)
    requires Whole(total) && (parts == [] ==> total == 0.0)
    ensures Sum(Allocate.Allocation(parts, total)) == total
  {
    if parts != [] { Allocate.AllocationSum(parts, total); }
  }

  lemma DebitNewWhole(debitOld: real, f: real)
    ensures Whole(DebitNew(debitOld, f))
    ensures debitOld == 0.0 ==> DebitNew(debitOld, f) == 0.0
  {
    WholeInt(Round(debitOld * f));
    WholeInt(Round(debitOld * f) + 1);
    if debitOld == 0.0 {
      assert debitOld * f == 0.0;
      RoundUnique(0.0, 0);
    }
  }

  lemma JournalRuleKept(b: Book, before: Amounts, after: Amounts, k: Key, f: real)
    requires after.Keys == before.Keys && JournalEq(b, before, after, k, f)
    requires Sum(SideValues(b, before, k, Debit)) == Sum(SideValues(b, before, k, Credit))
    ensures Sum(SideValues(b, after, k, Debit)) == Sum(SideValues(b, after, k, Credit))
  {
    var n := |b.Lines(k)|;
    SideSum(b, before.Keys, before, k, Debit, n);
    SideSum(b, before.Keys, before, k, Credit, n);
    SideSum(b, before.Keys, after, k, Debit, n);
    SideSum(b, before.Keys, after, k, Credit, n);
    var debits, credits := JournalSide(b, before.Keys, before, k, Debit),
        JournalSide(b, before.Keys, before, k, Credit);
    var debitNew := DebitNew(Sum(debits), f);
    DebitNewWhole(Sum(debits), f);
    ZeroResidual(Sum(credits), debitNew, f);
    AllocationOf(debits, debitNew);
    AllocationOf(credits, debitNew);
  }

  // ---- Precision ----

  predicate IsTaxFigure(b: Book, fld: Field) {
    || ((fld.TaxBase? || fld.TaxAmount?) && fld.line < |b.TaxLines(fld.key)|)
    || (fld.TotalTax? && fld.key in b.entities && b.entities[fld.key].tax.Some?)
  }

  predicate IsDocLineFigure(b: Book, fld: Field) {
    || (fld.LineAmount? && fld.line < |b.Lines(fld.key)|)
    || (fld.SubAmount? && fld.line < |b.Lines(fld.key)| && b.Lines(fld.key)[fld.line].detail.Group?
        && fld.sub < |b.Lines(fld.key)[fld.line].subs|)
  }

  /** Which figures of a line document its own step writes. */
  lemma DocFields(b: Book, before: Amounts, fld: Field)
    requires IsLineDoc(fld.key.kind) && !IsPrice(fld) && Stage(b, before, fld) < REST
    ensures IsDocLineFigure(b, fld) || IsTaxFigure(b, fld)
         || fld == Head(fld.key, TotalAmt) || fld == Head(fld.key, DepositPaid)
         || fld == Head(fld.key, Balance) || fld == Head(fld.key, RemainingCredit)
  {}

  lemma DocLinePrecision(b: Book, before: Amounts, after: Amounts, f: real, fld: Field)
    requires after.Keys == before.Keys && LinesEq(b, before, after, fld.key, f) && IsDocLineFigure(b, fld)
    ensures WholeAt(after, fld)
  {
    LineWhole(b, before, after, fld.key, fld.line, f);
  }

  lemma DocTaxPrecision(b: Book, before: Amounts, after: Amounts, f: real, fld: Field)
    requires after.Keys == before.Keys && LinesEq(b, before, after, fld.key, f) && TaxEq(b, before, after, fld.key, f)
    requires IsTaxFigure(b, fld)
    ensures WholeAt(after, fld)
  {
    LeafSumsWhole(b, before, after, fld.key, f);
    TaxesWhole(b, before, after, fld.key, f);
  }

  /** A line document's own figures. */
  lemma DocPrecision(b: Book, before: Amounts, after: Amounts, k: Key, f: real, fld: Field)
    requires after.Keys == before.Keys && LineDocEq(b, before, after, k, f) && BalanceEq(b, before, after, k, f)
    requires IsLineDoc(k.kind) && fld.key == k && !IsPrice(fld) && Stage(b, before, fld) < REST
    ensures WholeAt(after, fld)
  {
    DocFields(b, before, fld);
    if IsDocLineFigure(b, fld) {
      DocLinePrecision(b, before, after, f, fld);
    } else if IsTaxFigure(b, fld) {
      DocTaxPrecision(b, before, after, f, fld);
    } else {
      TotalWhole(b, before, after, k, f);
      BalanceWhole(b, before, after, k, f);
    }
  }

  /** A line that pays a document is rewritten with the document, in whole cents. */
  lemma ApplicationPrecision(b: Book, before: Amounts, after: Amounts, factor: Key -> real, k: Key, i: nat)
    requires b.Valid() && k in b.entities && after.Keys == before.Keys && EntitiesEq(b, before, after, factor)
    requires IsApplication(b, before.Keys, k, i)
    ensures WholeAt(after, LineAmount(k, i))
  {
    var t := AppTarget(b, before.Keys, k, i).value;
    AppListed(b, before.Keys, k, i);
    assert EntityEq(b, before, after, t, factor(t));
    TotalWhole(b, before, after, t, factor(t));
    BalanceWhole(b, before, after, t, factor(t));
    assert RefField(LineRef(k, i)) == LineAmount(k, i);
  }

  lemma PayerPrecision(b: Book, before: Amounts, after: Amounts, factor: Key -> real, k: Key)
    requires b.Valid() && k in b.entities && after.Keys == before.Keys && EntitiesEq(b, before, after, factor)
    requires IsPayer(k.kind)
    ensures forall i: nat :: i < |b.Lines(k)| ==> WholeAt(after, LineAmount(k, i))
    ensures WholeAt(after, Head(k, UnappliedAmt)) && WholeAt(after, Head(k, TotalAmt))
  {
    forall i: nat | i < |b.Lines(k)| && IsApplication(b, before.Keys, k, i) ensures WholeAt(after, LineAmount(k, i)) {
      ApplicationPrecision(b, before, after, factor, k, i);
    }
    assert EntityEq(b, before, after, k, factor(k));
    PayerWhole(b, before, after, k, factor(k));
  }

  lemma SettledPrecision(b: Book, before: Amounts, after: Amounts, factor: Key -> real, k: Key)
    requires b.Valid() && k in b.entities && after.Keys == before.Keys && EntitiesEq(b, before, after, factor)
    requires IsSettled(k.kind)
    ensures WholeAt(after, Head(k, TotalAmt))
  {
    assert EntityEq(b, before, after, k, factor(k));
    if IsPayer(k.kind) {
      PayerPrecision(b, before, after, factor, k);
    } else if k.kind.JournalEntry? {
      JournalWhole(b, before, after, k, factor(k));
    } else {
      TotalWhole(b, before, after, k, factor(k));
    }
  }

  lemma DepositPrecision(b: Book, before: Amounts, after: Amounts, factor: Key -> real, k: Key)
    requires b.Valid() && k in b.entities && after.Keys == before.Keys && EntitiesEq(b, before, after, factor)
    requires k.kind.Deposit? && TargetsSettled(b, before.Keys, k)
    ensures forall i: nat :: i < |b.Lines(k)| ==> WholeAt(after, LineAmount(k, i))
    ensures WholeAt(after, CashBack(k)) && WholeAt(after, Head(k, TotalAmt))
  {
    forall t | t in b.entities && IsSettled(t.kind) ensures WholeAt(after, Head(t, TotalAmt)) {
      SettledPrecision(b, before, after, factor, t);
    }
    assert EntityEq(b, before, after, k, factor(k));
    DepositWhole(b, before, after, k, factor(k));
  }

  lemma ContactPrecision(b: Book, before: Amounts, after: Amounts, factor: Key -> real, k: Key)
    requires b.Valid() && k in b.entities && after.Keys == before.Keys && EntitiesEq(b, before, after, factor)
    requires k.kind.Customer? || k.kind.Vendor?
    ensures WholeAt(after, Head(k, Balance))
  {
    forall doc | doc in b.entities && OpenItemOf(b, doc).Some? ensures WholeAt(after, OpenItemOf(b, doc).value.field) {
      assert EntityEq(b, before, after, doc, factor(doc));
      OpenItemWhole(b, before, after, factor, doc);
    }
    assert EntityEq(b, before, after, k, factor(k));
    ContactWhole(b, before, after, k, factor(k));
  }

  lemma TreePrecision(b: Book, before: Amounts, after: Amounts, t: Rollup, factor: Key -> real, k: Key)
    requires k in b.entities && k.kind == t.kind && IsRollup(t) && TreesEq(b, before, after, t, factor)
    requires after.Keys == before.Keys
    ensures WholeAt(after, Head(k, t.total)) && (t == ACCOUNTS ==> WholeAt(after, Head(k, t.own)))
  {
    assert RolledUp(b, before, after, t, k, factor(k));
    if t == ACCOUNTS && Head(k, t.own) in before { LeafWhole(before, after, Head(k, t.own), factor(k)); }
  }

  // Which of an entity's figures those are, kind by kind.

  predicate IsLineOf(b: Book, fld: Field) { fld.LineAmount? && fld.line < |b.Lines(fld.key)| }

  lemma PayerFields(b: Book, before: Amounts, fld: Field)
    requires IsPayer(fld.key.kind) && Stage(b, before, fld) <= 5
    ensures IsLineOf(b, fld) || fld == Head(fld.key, UnappliedAmt) || fld == Head(fld.key, TotalAmt)
  {}

  lemma DepositFields(b: Book, before: Amounts, fld: Field)
    requires fld.key.kind.Deposit? && Stage(b, before, fld) <= 5
    ensures IsLineOf(b, fld) || fld == CashBack(fld.key) || fld == Head(fld.key, TotalAmt)
  {}

  lemma PayerFigure(b: Book, before: Amounts, after: Amounts, factor: Key -> real, fld: Field)
    requires b.Valid() && fld.key in b.entities && after.Keys == before.Keys && EntitiesEq(b, before, after, factor)
    requires IsPayer(fld.key.kind) && Stage(b, before, fld) <= 5
    ensures WholeAt(after, fld)
  {
    PayerPrecision(b, before, after, factor, fld.key);
    PayerFields(b, before, fld);
  }

  lemma DepositFigure(b: Book, before: Amounts, after: Amounts, factor: Key -> real, fld: Field)
    requires b.Valid() && fld.key in b.entities && after.Keys == before.Keys && EntitiesEq(b, before, after, factor)
    requires fld.key.kind.Deposit? && TargetsSettled(b, before.Keys, fld.key) && Stage(b, before, fld) <= 5
    ensures WholeAt(after, fld)
  {
    DepositPrecision(b, before, after, factor, fld.key);
    DepositFields(b, before, fld);
  }

  lemma JournalFields(b: Book, before: Amounts, fld: Field)
    requires fld.key.kind.JournalEntry? && Stage(b, before, fld) <= 5
    ensures IsLineOf(b, fld) || fld == Head(fld.key, TotalAmt)
  {}

  lemma JournalFigure(b: Book, before: Amounts, after: Amounts, f: real, fld: Field)
    requires after.Keys == before.Keys && JournalEq(b, before, after, fld.key, f)
    requires IsLineOf(b, fld) || fld == Head(fld.key, TotalAmt)
    ensures WholeAt(after, fld)
  {
    JournalWhole(b, before, after, fld.key, f);
  }

  lemma ContactFigure(b: Book, before: Amounts, after: Amounts, factor: Key -> real, fld: Field)
    requires b.Valid() && fld.key in b.entities && after.Keys == before.Keys && EntitiesEq(b, before, after, factor)
    requires !IsLineDoc(fld.key.kind) && !IsPayer(fld.key.kind) && !fld.key.kind.Deposit? && !fld.key.kind.JournalEntry?
    requires Stage(b, before, fld) <= 5
    ensures WholeAt(after, fld)
  {
    assert fld == Head(fld.key, Balance) && (fld.key.kind.Customer? || fld.key.kind.Vendor?);
    ContactPrecision(b, before, after, factor, fld.key);
  }

  lemma EarlyPrecision(b: Book, before: Amounts, after: Amounts, factor: Key -> real, fld: Field, s: nat)
    requires b.Valid() && after.Keys == before.Keys && EntitiesEq(b, before, after, factor)
    requires fld.key in b.entities && !IsPrice(fld) && s == Stage(b, before, fld) <= 5
    requires fld.key.kind.Deposit? ==> TargetsSettled(b, before.Keys, fld.key)
    ensures WholeAt(after, fld)
  {
    var k := fld.key;
    assert EntityEq(b, before, after, k, factor(k));
    if IsLineDoc(k.kind) {
      DocPrecision(b, before, after, k, factor(k), fld);
    } else if IsPayer(k.kind) {
      PayerFigure(b, before, after, factor, fld);
    } else if k.kind.JournalEntry? {
      JournalFields(b, before, fld);
      JournalFigure(b, before, after, factor(k), fld);
    } else if k.kind.Deposit? {
      DepositFigure(b, before, after, factor, fld);
    } else {
      ContactFigure(b, before, after, factor, fld);
    }
  }

  lemma TreeFigure(b: Book, before: Amounts, after: Amounts, factor: Key -> real, fld: Field)
    requires TreesEq(b, before, after, CUSTOMERS, factor) && TreesEq(b, before, after, ACCOUNTS, factor)
    requires fld.key in b.entities && after.Keys == before.Keys && Stage(b, before, fld) == 6
    ensures WholeAt(after, fld)
  {
    if fld.key.kind.Customer? {
      TreePrecision(b, before, after, CUSTOMERS, factor, fld.key);
    } else {
      TreePrecision(b, before, after, ACCOUNTS, factor, fld.key);
    }
  }

  lemma FigurePrecision(b: Book, before: Amounts, after: Amounts, factor: Key -> real, fld: Field)
    requires b.Valid() && after.Keys == before.Keys && EntitiesEq(b, before, after, factor)
    requires TreesEq(b, before, after, CUSTOMERS, factor) && TreesEq(b, before, after, ACCOUNTS, factor)
    requires LeftOversEq(b, before, after, factor)
    requires fld in before && fld.key in b.entities && !IsPrice(fld)
    requires fld.key.kind.Deposit? ==> TargetsSettled(b, before.Keys, fld.key)
    ensures Whole(after[fld])
  {
    StageBound(b, before, fld);
    var s := Stage(b, before, fld);
    if s <= 5 {
      EarlyPrecision(b, before, after, factor, fld, s);
    } else if s == 6 {
      TreeFigure(b, before, after, factor, fld);
    } else {
      RestWhole(b, before, after, fld, factor(fld.key));
    }
  }

  // ---- The theorem ----

  lemma LineDocRuleExactly(b: Book, before: Amounts, after: Amounts, factor: Key -> real, k: Key, r: Check)
    requires k in b.entities && after.Keys == before.Keys && EntitiesEq(b, before, after, factor)
    requires !r.DepositLine? && !NeedsNothing(r) && CheckHolds(b, before, k, r)
    ensures CheckHolds(b, after, k, r) <==> CheckPreservable(b, before, factor, k, r)
  {
    if IsLineDoc(k.kind) {
      assert EntityEq(b, before, after, k, factor(k));
      TotalWhole(b, before, after, k, factor(k));
      LineRuleExactly(b, before, after, k, r, factor(k));
    }
  }

  predicate NeedsNothing(r: Check) {
    r.DebitsEqualCredits? || r.PaymentTotal? || r.DepositTotal? || r.ContactBalance?
  }

  /** These rules are kept whenever the original keeps them. */
  lemma OtherRuleKept(b: Book, before: Amounts, after: Amounts, k: Key, r: Check, f: real)
    requires k in b.entities && after.Keys == before.Keys && EntityEq(b, before, after, k, f)
    requires NeedsNothing(r) && CheckHolds(b, before, k, r)
    ensures CheckHolds(b, after, k, r)
  {
    match r
    case DebitsEqualCredits =>
      if k.kind.JournalEntry? { JournalRuleKept(b, before, after, k, f); }
    case PaymentTotal =>
      if IsPayer(k.kind) && Head(k, TotalAmt) in before {
        DerivedKept(before, after, Head(k, TotalAmt),
          Sum(PayerValues(b, after, k)) + Get(after, Head(k, UnappliedAmt)),
          Sum(PayerValues(b, before, k)) + Get(before, Head(k, UnappliedAmt)), f);
      }
    case DepositTotal =>
      if k.kind.Deposit? && Head(k, TotalAmt) in before {
        DerivedKept(before, after, Head(k, TotalAmt),
          Sum(DepositValues(b, after, k)) - Get(after, CashBack(k)),
          Sum(DepositValues(b, before, k)) - Get(before, CashBack(k)), f);
      }
    case ContactBalance =>
      if (k.kind.Customer? || k.kind.Vendor?) && Head(k, Balance) in before {
        DerivedKept(before, after, Head(k, Balance), Sum(OpenTerms(b, after, k)), Sum(OpenTerms(b, before, k)), f);
      }
  }

  lemma EntityRuleExactly(b: Book, before: Amounts, after: Amounts, factor: Key -> real, k: Key, r: Check)
    requires b.Valid() && k in b.entities && after.Keys == before.Keys && EntitiesEq(b, before, after, factor)
    requires LeftOversEq(b, before, after, factor) && CheckHolds(b, before, k, r)
    ensures CheckHolds(b, after, k, r) <==> CheckPreservable(b, before, factor, k, r)
  {
    if r.DepositLine? {
      DepositLineExactly(b, before, after, factor, k, r.line);
    } else if NeedsNothing(r) {
      OtherRuleExactly(b, before, after, factor, k, r);
    } else {
      LineDocRuleExactly(b, before, after, factor, k, r);
    }
  }

  lemma OtherRuleExactly(b: Book, before: Amounts, after: Amounts, factor: Key -> real, k: Key, r: Check)
    requires k in b.entities && after.Keys == before.Keys && EntitiesEq(b, before, after, factor)
    requires NeedsNothing(r) && CheckHolds(b, before, k, r)
    ensures CheckHolds(b, after, k, r) && CheckPreservable(b, before, factor, k, r)
  {
    assert EntityEq(b, before, after, k, factor(k));
    OtherRuleKept(b, before, after, k, r, factor(k));
  }

  lemma FigureRuleExactly(b: Book, before: Amounts, after: Amounts, factor: Key -> real, fld: Field)
    requires b.Valid() && forall other :: other in before ==> other.key in b.entities
    requires Scrubbed(b, before, after, factor)
    ensures PrecisionHolds(after, fld) <==> Preservable(b, before, factor, Precision(fld))
  {
    if fld in before && !IsPrice(fld) {
      if fld.key.kind.Deposit? {
        DepositFigureExactly(b, before, after, factor, fld);
      } else {
        FigurePrecision(b, before, after, factor, fld);
      }
    }
  }

  lemma DepositFigureExactly(b: Book, before: Amounts, after: Amounts, factor: Key -> real, fld: Field)
    requires b.Valid() && after.Keys == before.Keys && EntitiesEq(b, before, after, factor)
    requires LeftOversEq(b, before, after, factor)
    requires fld in before && fld.key in b.entities && fld.key.kind.Deposit? && !IsPrice(fld)
    ensures Whole(after[fld]) <==> DepositWholePreservable(b, before, factor, fld)
  {
    if Stage(b, before, fld) == 4 {
      DepositWholeExactly(b, before, after, factor, fld);
    } else {
      RestWhole(b, before, after, fld, factor(fld.key));
    }
  }

  /** A rule that the original keeps is kept after scrubbing exactly when its condition holds, which the original and
      the factors tell; for a rollup, where the entities of its kind form trees within the recursion limit. */
  lemma Preserved(b: Book, before: Amounts, after: Amounts, factor: Key -> real, r: Rule)
    requires b.Valid() && forall fld :: fld in before ==> fld.key in b.entities
    requires Scrubbed(b, before, after, factor) && Holds(b, before, r)
    requires r.RollupOf? ==> Forest(b, r.rollup.kind)
    ensures Holds(b, after, r) <==> Preservable(b, before, factor, r)
  {
    match r
    case Precision(fld) => FigureRuleExactly(b, before, after, factor, fld);
    case RollupOf(k, t) => if k in b.entities { RollupExactly(b, before, after, factor, t, k); }
    case RuleOf(k, check) => if k in b.entities { EntityRuleExactly(b, before, after, factor, k, check); }
  }

  lemma PlainCheckKept(b: Book, before: Amounts, factor: Key -> real, k: Key, r: Check)
    requires k in b.entities && Plain(b, before, RuleOf(k, r))
    ensures CheckPreservable(b, before, factor, k, r)
  {
    if !r.DepositLine? && IsLineDoc(k.kind) { PlainLineKept(b, before, k, r, factor(k)); }
  }

  /** In the usual case every rule the original keeps is kept, whatever the factors. */
  lemma PlainlyPreserved(b: Book, before: Amounts, after: Amounts, factor: Key -> real, r: Rule)
    requires b.Valid() && forall fld :: fld in before ==> fld.key in b.entities
    requires Scrubbed(b, before, after, factor) && Holds(b, before, r) && Plain(b, before, r)
    ensures Holds(b, after, r)
  {
    match r
    case Precision(fld) => if fld in before && !IsPrice(fld) { FigurePrecision(b, before, after, factor, fld); }
    case RollupOf(k, t) =>
      PlainRollupKept(b, before, factor, t, k);
      Preserved(b, before, after, factor, r);
    case RuleOf(k, check) =>
      if k in b.entities {
        PlainCheckKept(b, before, factor, k, check);
        Preserved(b, before, after, factor, r);
      }
  }
}
