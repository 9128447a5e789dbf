/** How payments keep their shape, and exactly where scrubbing can break a rule. */
module ScrubLimits {
  import opened Cents
  import opened Wrappers
  import opened FixtureBook
  import opened FixtureRules
  import opened ScrubSpec
  import opened ScrubForecast
  import opened ScrubWhole
  import opened ScrubLines
  import opened ScrubTrees
  import opened ScrubDeposits
  import opened ScrubSteps
  import opened ScrubTheorem

  // ---- Payments ----

  lemma AppliedNewShape(applied: real, baseOld: real, baseNew: real, f: real)
    ensures applied == baseOld ==> AppliedNew(applied, baseOld, baseNew, f) == baseNew
    ensures applied == 0.0 && baseOld != 0.0 ==> AppliedNew(applied, baseOld, baseNew, f) == 0.0
    ensures 0.0 < applied < baseOld ==>
      (1.0 <= AppliedNew(applied, baseOld, baseNew, f) <= baseNew - 1.0 <==> baseNew >= 2.0)
    ensures 0.0 < applied < baseOld && Whole(baseNew) ==>
      (0.0 < AppliedNew(applied, baseOld, baseNew, f) < baseNew <==> baseNew >= 2.0)
  {}

  /** Paid in full stays paid in full and net-zero applications stay net zero. Part paid stays part paid, by at least a
      cent on either side, exactly when the document comes out with two cents or more to pay. */
  lemma PaymentShape(b: Book, before: Amounts, after: Amounts, factor: Key -> real, k: Key)
    requires Scrubbed(b, before, after, factor)
    requires k in b.entities && IsLineDoc(k.kind) && Apps(b, before.Keys, k) != []
    ensures Applied(b, before, k) == Base(before, k) ==> Applied(b, after, k) == Base(after, k)
    ensures Applied(b, before, k) == 0.0 && Base(before, k) != 0.0 ==> Applied(b, after, k) == 0.0
    ensures 0.0 < Applied(b, before, k) < Base(before, k) ==>
      && (0.0 < Applied(b, after, k) < Base(after, k) <==> BaseNew(b, before, k, factor(k)) >= 2.0)
      && (1.0 <= Applied(b, after, k) <= Base(after, k) - 1.0 <==> BaseNew(b, before, k, factor(k)) >= 2.0)
  {
    var f := factor(k);
    assert EntityEq(b, before, after, k, f);
    BaseForeseen(b, before, after, k, f);
    TotalWhole(b, before, after, k, f);
    AppliedTotal(b, before, after, k, f);
    AppliedNewShape(Applied(b, before, k), Base(before, k), Base(after, k), f);
  }

  // ---- Single rules, told before a run ----

  /** A subtotal followed by leaves survives exactly when those leaves, rounded one by one
      and perhaps moved by a cent, come to what their sum rounds to. */
  lemma SubtotalExactly(b: Book, before: Amounts, after: Amounts, factor: Key -> real, k: Key, i: nat)
    requires Scrubbed(b, before, after, factor) && k in b.entities && IsLineDoc(k.kind)
    requires i < |b.Lines(k)| && b.Lines(k)[i].detail.SubTotal? && LineAmount(k, i) in before
    requires CheckHolds(b, before, k, SubtotalLine(i))
    ensures CheckHolds(b, after, k, SubtotalLine(i)) <==>
            LaterLeavesNew(b, before, k, i, factor(k)) == AsOne(LaterLeaves(b, before, k, i), factor(k))
  {
    assert EntityEq(b, before, after, k, factor(k));
    SubtotalKept(b, before, after, k, i, factor(k));
  }

  /** The total survives exactly when the groups without an amount and the tax the checker leaves out come, together,
      to what they come to scaled as one amount. */
  lemma TotalExactly(b: Book, before: Amounts, after: Amounts, factor: Key -> real, k: Key)
    requires Scrubbed(b, before, after, factor) && k in b.entities && IsLineDoc(k.kind)
    requires Head(k, TotalAmt) in before && CheckHolds(b, before, k, TotalIs)
    ensures CheckHolds(b, after, k, TotalIs) <==>
            LeafGapNew(b, before, k, factor(k)) + UncheckedTaxNew(b, before, k, factor(k))
            == AsOne(LeafGap(b, before, k) + UncheckedTax(b, before, k), factor(k))
  {
    assert EntityEq(b, before, after, k, factor(k));
    TotalKept(b, before, after, k, factor(k));
  }

  /** The balance rule survives exactly when a document with nothing to pay and nothing applied comes out
      with nothing to pay. */
  lemma BalanceExactly(b: Book, before: Amounts, after: Amounts, factor: Key -> real, k: Key)
    requires Scrubbed(b, before, after, factor) && k in b.entities && IsLineDoc(k.kind)
    requires Head(k, TotalAmt) in before && Head(k, Balance) in before && CheckHolds(b, before, k, BalanceIs)
    ensures CheckHolds(b, after, k, BalanceIs) <==> ZeroBaseKept(b, before, k, factor(k))
  {
    assert EntityEq(b, before, after, k, factor(k));
    TotalWhole(b, before, after, k, factor(k));
    BalanceRuleKept(b, before, after, k, factor(k));
  }

  // ---- Books that scrubbing breaks ----

  const DOC := Key(Invoice, "1")

  function Item(detail: Detail): Line { Line(detail, None, None, false, None, None, []) }

  function Document(lines: seq<Line>, tax: Option<seq<TaxLine>>): Book {
    Book([DOC], map[DOC := Entity(lines, tax, false, None, None, None, None)], map[])
  }

  lemma SumOfThree(s: seq<real>)
    requires |s| == 3
    ensures Sum(s) == s[0] + s[1] + s[2] && SumTo(s, 1) == s[0]
  {
    assert SumTo(s, 2) == SumTo(s, 1) + s[1];
    assert SumTo(s, 1) == SumTo(s, 0) + s[0];
  }

  lemma SumOfTwo(s: seq<real>)
    requires |s| == 2
    ensures Sum(s) == s[0] + s[1]
  {
    assert SumTo(s, 1) == SumTo(s, 0) + s[0];
  }

  lemma SumOfOne(s: seq<real>)
    requires |s| == 1
    ensures Sum(s) == s[0]
  {
    assert SumTo(s, 0) == 0.0;
  }

  lemma HalfCents()
    ensures Scaled(1.0, 0.5) == 2.0 && Scaled(2.0, 0.5) == 1.0 && Scaled(3.0, 0.5) == 2.0 && Scaled(10.0, 0.5) == 5.0
    ensures Q2(0.5) == 1.0
  {}

  /** Lines of 3 and 1 cents with a subtotal of 3 between them: halved, the lines come to 2
      and 2 and the subtotal to 3. */
  lemma SubtotalInTheMiddle(after: Amounts, factor: Key -> real)
    requires factor(DOC) == 0.5
    requires Scrubbed(Document([Item(Plain), Item(SubTotal), Item(Plain)], None),
      map[LineAmount(DOC, 0) := 3.0, LineAmount(DOC, 1) := 3.0, LineAmount(DOC, 2) := 1.0], after, factor)
    ensures var b := Document([Item(Plain), Item(SubTotal), Item(Plain)], None);
      && Holds(b, map[LineAmount(DOC, 0) := 3.0, LineAmount(DOC, 1) := 3.0, LineAmount(DOC, 2) := 1.0],
          RuleOf(DOC, SubtotalLine(1)))
      && !Holds(b, after, RuleOf(DOC, SubtotalLine(1)))
  {
    var b := Document([Item(Plain), Item(SubTotal), Item(Plain)], None);
    var before: Amounts := map[LineAmount(DOC, 0) := 3.0, LineAmount(DOC, 1) := 3.0, LineAmount(DOC, 2) := 1.0];
    assert EntityEq(b, before, after, DOC, 0.5);
    assert LeafLineEq(b, before, after, DOC, 0, 0.5) && LeafLineEq(b, before, after, DOC, 2, 0.5);
    HalfCents();
    SumOfThree(LeafValues(b, before, DOC));
    SumOfThree(LeafValues(b, after, DOC));
    SumOfThree(LineValues(b, before, DOC));
    SumOfThree(LineValues(b, after, DOC));
    assert SummaryLineEq(b, before, after, DOC, 1, 0.5);
    SubtotalKept(b, before, after, DOC, 1, 0.5);
    LeavesForeseen(b, before, after, DOC, 0.5);
  }

  function TwoLines(): Book { Document([Item(Plain), Item(Plain)], None) }

  function PaidUpFront(): Amounts {
    map[LineAmount(DOC, 0) := 1.0, LineAmount(DOC, 1) := 2.0, Head(DOC, TotalAmt) := 3.0,
        Head(DOC, DepositPaid) := 3.0, Head(DOC, Balance) := 0.0]
  }

  lemma PaidUpFrontHas()
    ensures var before := PaidUpFront();
            && Head(DOC, TotalAmt) in before && Head(DOC, DepositPaid) in before && Head(DOC, Balance) in before
            && before[Head(DOC, TotalAmt)] == 3.0 && before[Head(DOC, DepositPaid)] == 3.0 &&
                before[Head(DOC, Balance)] == 0.0
            && LineAmount(DOC, 0) in before && LineAmount(DOC, 1) in before && TotalTax(DOC) !in before
            && before[LineAmount(DOC, 0)] == 1.0 && before[LineAmount(DOC, 1)] == 2.0
            && LinePrice(DOC, 0) !in before && LinePrice(DOC, 1) !in before
  {}

  lemma TwoLinesOld()
    ensures TotalFormula(TwoLines(), PaidUpFront(), DOC) == 3.0 && Applied(TwoLines(), PaidUpFront(), DOC) == 0.0
    ensures Apps(TwoLines(), PaidUpFront().Keys, DOC) == []
  {
    PaidUpFrontHas();
    SumOfTwo(LineValues(TwoLines(), PaidUpFront(), DOC));
    SumOfTwo(DiscountValues(TwoLines(), PaidUpFront(), DOC));
  }

  lemma TwoLinesNew()
    ensures Sum(CountedLeavesNew(TwoLines(), PaidUpFront(), DOC, 0.5)) == 3.0
    ensures Sum(DiscountsNew(TwoLines(), PaidUpFront(), DOC, 0.5)) == 0.0
  {
    PaidUpFrontHas();
    HalfCents();
    SumOfTwo(CountedLeavesNew(TwoLines(), PaidUpFront(), DOC, 0.5));
    SumOfTwo(DiscountsNew(TwoLines(), PaidUpFront(), DOC, 0.5));
  }

  lemma BaseFrom(b: Book, before: Amounts, k: Key, f: real, total: real)
    requires Head(k, TotalAmt) in before && before[Head(k, TotalAmt)] == total && TotalFormula(b, before, k) == total
    requires Sum(CountedLeavesNew(b, before, k, f)) - Sum(DiscountsNew(b, before, k, f)) + TaxNew(b, before, k, f) ==
        total
    ensures BaseNew(b, before, k, f) == total - LeafNew(before, Head(k, DepositPaid), f)
  {
    ZeroResidual(total, total, f);
  }

  lemma TwoLinesHalved()
    ensures BaseNew(TwoLines(), PaidUpFront(), DOC, 0.5) == 1.0
  {
    PaidUpFrontHas();
    TwoLinesOld();
    TwoLinesNew();
    HalfCents();
    BaseFrom(TwoLines(), PaidUpFront(), DOC, 0.5, 3.0);
  }

  /** Lines of 1 and 2 cents, paid up front in full: halved, the total stays 3 and the deposit
      comes to 2, so the balance of nothing no longer is what the document leaves open. */
  lemma ZeroBaseBroken(after: Amounts, factor: Key -> real)
    requires factor(DOC) == 0.5 && Scrubbed(TwoLines(), PaidUpFront(), after, factor)
    ensures Holds(TwoLines(), PaidUpFront(), RuleOf(DOC, BalanceIs)) &&
        !Holds(TwoLines(), after, RuleOf(DOC, BalanceIs))
  {
    PaidUpFrontHas();
    TwoLinesOld();
    TwoLinesHalved();
    BalanceExactly(TwoLines(), PaidUpFront(), after, factor, DOC);
  }

  /** A line of 10 cents and a tax line of 1 cent that no `TotalTax` sums up: halved, the lines
      come to 5 and 2 and the total to 6. */
  lemma TaxUnstated(after: Amounts, factor: Key -> real, before: Amounts)
    requires factor(DOC) == 0.5
    requires before == map[LineAmount(DOC, 0) := 10.0, TaxAmount(DOC, 0) := 1.0, Head(DOC, TotalAmt) := 10.0]
    requires Scrubbed(Document([Item(Plain)], Some([TaxLine(None)])), before, after, factor)
    ensures Holds(Document([Item(Plain)], Some([TaxLine(None)])), before, RuleOf(DOC, TotalIs))
    ensures !Holds(Document([Item(Plain)], Some([TaxLine(None)])), after, RuleOf(DOC, TotalIs))
  {
    var b := Document([Item(Plain)], Some([TaxLine(None)]));
    assert EntityEq(b, before, after, DOC, 0.5);
    assert LeafLineEq(b, before, after, DOC, 0, 0.5) && TaxLineEq(b, before, after, DOC, 0, 0.5);
    HalfCents();
    SumOfOne(LeafValues(b, before, DOC));
    SumOfOne(DiscountValues(b, before, DOC));
    SumOfOne(TaxValues(b, before, DOC));
    SumOfOne(TaxValues(b, after, DOC));
    SumOfOne(LineValues(b, before, DOC));
    SumOfOne(LineValues(b, after, DOC));
    SumOfOne(LeafValues(b, after, DOC));
    TotalKept(b, before, after, DOC, 0.5);
    LeavesForeseen(b, before, after, DOC, 0.5);
    TaxForeseen(b, before, after, DOC, 0.5);
  }

  // ---- Figures that are not stated ----

  lemma UnitsHalved()
    ensures Scaled(1.0, 0.5) == 2.0 && Scaled(-2.0, 0.5) == -1.0 && AsOne(3.0, 0.5) == 2.0
    ensures PercentOf(3.0, 100.0) == 3.0 && PercentOf(0.0, 100.0) == 0.0
  {}

  function Discounted(): Line { Line(Discount, None, None, false, Some(100.0), None, []) }

  function Grouped(subs: seq<Line>): Line { Line(Group, None, None, false, None, None, subs) }

  /** Three leaves and, without amounts of their own, a subtotal, a discount and a group of three. */
  function Unstated(): Book {
    Document([Item(Plain), Item(Plain), Item(Plain), Item(SubTotal), Discounted(),
              Grouped([Item(Plain), Item(Plain), Item(Plain)])], None)
  }

  function UnstatedAmounts(): Amounts {
    map[LineAmount(DOC, 0) := 1.0, LineAmount(DOC, 1) := 1.0, LineAmount(DOC, 2) := -2.0,
        SubAmount(DOC, 5, 0) := 1.0, SubAmount(DOC, 5, 1) := 1.0, SubAmount(DOC, 5, 2) := -2.0]
  }

  lemma SumOfSix(s: seq<real>)
    requires |s| == 6
    ensures SumTo(s, 3) == s[0] + s[1] + s[2] && Sum(s) == SumTo(s, 3) + s[3] + s[4] + s[5]
  {
    assert SumTo(s, 5) == SumTo(s, 4) + s[4];
    assert SumTo(s, 4) == SumTo(s, 3) + s[3];
    assert SumTo(s, 3) == SumTo(s, 2) + s[2];
    assert SumTo(s, 2) == SumTo(s, 1) + s[1];
    assert SumTo(s, 1) == SumTo(s, 0) + s[0];
  }

  lemma UnstatedHas()
    ensures var before := UnstatedAmounts();
      && LineAmount(DOC, 3) !in before && LineAmount(DOC, 4) !in before && LineAmount(DOC, 5) !in before
      && (forall i: nat :: i < 3 ==>
            LineAmount(DOC, i) in before && LinePrice(DOC, i) !in before && SubAmount(DOC, 5, i) in before &&
            SubPrice(DOC, 5, i) !in before)
      && before[LineAmount(DOC, 0)] == 1.0 && before[LineAmount(DOC, 1)] == 1.0 && before[LineAmount(DOC, 2)] == -2.0
      && before[SubAmount(DOC, 5, 0)] == 1.0 && before[SubAmount(DOC, 5, 1)] == 1.0
      && before[SubAmount(DOC, 5, 2)] == -2.0
  {}

  lemma UnstatedOld()
    ensures SumTo(LeafValues(Unstated(), UnstatedAmounts(), DOC), 3) == 0.0
    ensures Sum(LeafValues(Unstated(), UnstatedAmounts(), DOC)) == 0.0
    ensures Sum(SubValues(Unstated(), UnstatedAmounts(), DOC, 5)) == 0.0
  {
    UnstatedHas();
    SumOfSix(LeafValues(Unstated(), UnstatedAmounts(), DOC));
    SumOfThree(SubValues(Unstated(), UnstatedAmounts(), DOC, 5));
  }

  lemma UnstatedNew()
    ensures SumTo(LeavesNew(Unstated(), UnstatedAmounts(), DOC, 0.5), 3) == 3.0
    ensures Sum(LeavesNew(Unstated(), UnstatedAmounts(), DOC, 0.5)) == 3.0
    ensures Sum(SubsNew(Unstated(), UnstatedAmounts(), DOC, 5, 0.5)) == 3.0
  {
    UnstatedHas();
    UnitsHalved();
    SumOfSix(LeavesNew(Unstated(), UnstatedAmounts(), DOC, 0.5));
    SumOfThree(SubsNew(Unstated(), UnstatedAmounts(), DOC, 5, 0.5));
  }

  lemma UnstatedFails(b: Book, before: Amounts, r: Check)
    requires b == Unstated() && before == UnstatedAmounts()
    requires r == SubtotalLine(3) || r == DiscountLine(4) || r == GroupLine(5)
    ensures DOC in b.entities && CheckHolds(b, before, DOC, r) && !LinePreservable(b, before, DOC, r, 0.5)
  {
    UnstatedHas();
    UnitsHalved();
    UnstatedOld();
    UnstatedNew();
  }

  lemma UnstatedShape(b: Book, before: Amounts)
    requires b == Unstated() && before == UnstatedAmounts()
    ensures b.Valid() && forall fld :: fld in before ==> fld.key in b.entities
  {}

  /** Amounts of 1, 1 and -2 cents, halved, come to 2, 2 and -1: a subtotal, a discount of all of it and a group that
      state no amount no longer come to nothing. */
  lemma UnstatedBroken(b: Book, before: Amounts, after: Amounts, factor: Key -> real, r: Check)
    requires b == Unstated() && before == UnstatedAmounts()
    requires Scrubbed(b, before, after, factor) && factor(DOC) == 0.5
    requires r == SubtotalLine(3) || r == DiscountLine(4) || r == GroupLine(5)
    ensures Holds(b, before, RuleOf(DOC, r)) && !Holds(b, after, RuleOf(DOC, r))
  {
    UnstatedFails(b, before, r);
    UnstatedShape(b, before);
    Broken(b, before, after, factor, RuleOf(DOC, r));
  }

  /** A rule that is kept and does not meet its condition is lost. */
  lemma Broken(b: Book, before: Amounts, after: Amounts, factor: Key -> real, r: Rule)
    requires b.Valid() && forall fld :: fld in before ==> fld.key in b.entities
    requires Scrubbed(b, before, after, factor) && Holds(b, before, r) && !Preservable(b, before, factor, r)
    requires r.RollupOf? ==> Forest(b, r.rollup.kind)
    ensures !Holds(b, after, r)
  {
    Preserved(b, before, after, factor, r);
  }

  // ---- Totals over trees and deposits ----

  const PARENT := Key(Account, "1")
  const CHILD := Key(Account, "2")

  function Leaf(parent: Option<string>): Entity { Entity([], None, false, None, None, parent, None) }

  function Family(): Book {
    Book([PARENT, CHILD], map[PARENT := Leaf(None), CHILD := Leaf(Some("1"))], map[])
  }

  function FamilyAmounts(): Amounts {
    map[Head(PARENT, CurrentBalance) := 10.0, Head(PARENT, CurrentBalanceWithSubAccounts) := 10.0,
        Head(CHILD, CurrentBalance) := 1.0]
  }

  lemma FamilyTree(b: Book)
    requires b == Family()
    ensures b.Valid() && IsChild(b, PARENT, CHILD) && (forall k :: k in b.entities <==> k == PARENT || k == CHILD)
    ensures forall k :: !IsChild(b, CHILD, k) && (IsChild(b, PARENT, k) ==> k == CHILD)
  {}

  lemma FamilyForest(b: Book)
    requires b == Family()
    ensures Forest(b, Account)
  {
    FamilyTree(b);
    ForestOfTwo(b);
  }

  lemma ForestOfTwo(b: Book)
    requires (forall k :: k in b.entities <==> k == PARENT || k == CHILD) && forall k :: !IsChild(b, CHILD, k)
    requires forall k :: IsChild(b, PARENT, k) ==> k == CHILD
    ensures Forest(b, Account)
  {
    assert Within(b, CHILD, 0);
    WithinMonotone(b, CHILD, 0, MAX_DEPTH - 1);
    WithinMonotone(b, CHILD, 0, MAX_DEPTH);
    assert Within(b, PARENT, MAX_DEPTH);
  }

  lemma FamilyGap(b: Book, before: Amounts, factor: Key -> real)
    requires b == Family() && before == FamilyAmounts() && factor(CHILD) == 0.5
    ensures Sum(Uncounted(b, before.Keys, before, ACCOUNTS, PARENT)) == 1.0
    ensures Sum(UncountedNew(b, before, factor, ACCOUNTS, PARENT)) == 2.0
  {
    FamilyTree(b);
    UnitsHalved();
    SumOfZeros(CarriedUp(b, before.Keys, before, ACCOUNTS, CHILD, MAX_DEPTH - 1), 2);
    SumOfZeros(CarriedUpNew(b, before, factor, ACCOUNTS, CHILD, MAX_DEPTH - 1), 2);
    SumOfTwo(Uncounted(b, before.Keys, before, ACCOUNTS, PARENT));
    SumOfTwo(UncountedNew(b, before, factor, ACCOUNTS, PARENT));
  }

  lemma FamilyFails(b: Book, before: Amounts, factor: Key -> real)
    requires b == Family() && before == FamilyAmounts() && factor(PARENT) == 0.5 && factor(CHILD) == 0.5
    ensures RollupHolds(b, before, PARENT, ACCOUNTS) && !RollupPreservable(b, before, factor, ACCOUNTS, PARENT)
  {
    FamilyTree(b);
    SumOfTwo(ChildTotals(b, before, ACCOUNTS, PARENT));
    FamilyGap(b, before, factor);
    HalfCents();
  }

  /** An account of 10 cents with a sub-account of 1 that states no total: the rule counts the parent alone, and halved
      the scrubber adds the sub-account's 2 cents and takes 1 back. */
  lemma ChildWithoutTotal(b: Book, before: Amounts, after: Amounts, factor: Key -> real)
    requires b == Family() && before == FamilyAmounts()
    requires factor(PARENT) == 0.5 && factor(CHILD) == 0.5 && Scrubbed(b, before, after, factor)
    ensures Holds(b, before, RollupOf(PARENT, ACCOUNTS)) && !Holds(b, after, RollupOf(PARENT, ACCOUNTS))
  {
    FamilyTree(b);
    FamilyForest(b);
    FamilyFails(b, before, factor);
    Broken(b, before, after, factor, RollupOf(PARENT, ACCOUNTS));
  }

  const DEPOSIT := Key(Deposit, "1")
  const TRANSFER := Key(OtherKind("Transfer"), "1")

  function Banked(): Book {
    Book([DEPOSIT, TRANSFER],
         map[DEPOSIT := Entity([Line(Plain, Some(TRANSFER), None, false, None, None, [])], None, false, None, None,
                               None, None),
             TRANSFER := Leaf(None)], map[])
  }

  function BankedAmounts(): Amounts { map[LineAmount(DEPOSIT, 0) := 10.0, Head(TRANSFER, TotalAmt) := 10.0] }

  lemma BankedFails(b: Book, before: Amounts, factor: Key -> real)
    requires b == Banked() && before == BankedAmounts() && factor(TRANSFER) == 0.5
    ensures b.Valid() && DEPOSIT in b.entities && (forall fld :: fld in before ==> fld.key in b.entities)
    ensures CheckHolds(b, before, DEPOSIT, DepositLine(0)) && !DepositLinePreservable(b, before, factor, DEPOSIT, 0)
  {
    HalfCents();
    assert DepositTarget(b, before.Keys, DEPOSIT, 0) == Some(TRANSFER);
    assert !ScrubbedBefore(b, TRANSFER, DEPOSIT);
  }

  /** A deposit line of 10 cents that brings a transfer of 10: the line is left at 10 because the transfer's total comes
      later, and comes out at 5. */
  lemma DepositTooEarly(b: Book, before: Amounts, after: Amounts, factor: Key -> real)
    requires b == Banked() && before == BankedAmounts()
    requires factor(TRANSFER) == 0.5 && Scrubbed(b, before, after, factor)
    ensures Holds(b, before, RuleOf(DEPOSIT, DepositLine(0))) && !Holds(b, after, RuleOf(DEPOSIT, DepositLine(0)))
  {
    BankedFails(b, before, factor);
    Broken(b, before, after, factor, RuleOf(DEPOSIT, DepositLine(0)));
  }

  // ---- A payment that loses its shape ----

  const PAYMENT := Key(Payment, "1")

  function HalfPaid(): Book {
    Book([DOC, PAYMENT],
         map[DOC := Entity([Item(Plain)], None, false, None, None, None, None),
             PAYMENT := Entity([Line(Plain, Some(DOC), None, false, None, None, [])], None, false, None, None, None,
                               None)], map[])
  }

  function HalfPaidAmounts(): Amounts {
    map[LineAmount(DOC, 0) := 2.0, Head(DOC, TotalAmt) := 2.0, LineAmount(PAYMENT, 0) := 1.0]
  }

  lemma HalfPaidApps(b: Book, before: Amounts)
    requires b == HalfPaid() && before == HalfPaidAmounts()
    ensures Apps(b, before.Keys, DOC) == [LineRef(PAYMENT, 0)] && Applied(b, before, DOC) == 1.0
    ensures Base(before, DOC) == 2.0
  {
    assert AppTarget(b, before.Keys, PAYMENT, 0) == Some(DOC) && AppTarget(b, before.Keys, DOC, 0) == None;
    assert AppsUpTo(b, before.Keys, DOC, 0, 0) == [] && AppsUpTo(b, before.Keys, DOC, 0, 1) == [];
    assert AppsUpTo(b, before.Keys, DOC, 1, 0) == [];
    assert AppsUpTo(b, before.Keys, DOC, 1, 1) == [LineRef(PAYMENT, 0)];
    SumOfOne(AppAmounts(before, Apps(b, before.Keys, DOC)));
  }

  lemma HalfPaidBase(b: Book, before: Amounts)
    requires b == HalfPaid() && before == HalfPaidAmounts()
    ensures BaseNew(b, before, DOC, 0.5) == 1.0
  {
    HalfCents();
    SumOfOne(CountedLeavesNew(b, before, DOC, 0.5));
    SumOfOne(DiscountsNew(b, before, DOC, 0.5));
    SumOfOne(LineValues(b, before, DOC));
    SumOfOne(DiscountValues(b, before, DOC));
    ZeroResidual(2.0, 1.0, 0.5);
  }

  /** A document of 2 cents with 1 paid: halved, it comes out at 1 with 1 paid, which is paid in full. */
  lemma PartPaidLost(b: Book, before: Amounts, after: Amounts, factor: Key -> real)
    requires b == HalfPaid() && before == HalfPaidAmounts()
    requires factor(DOC) == 0.5 && Scrubbed(b, before, after, factor)
    ensures 0.0 < Applied(b, before, DOC) < Base(before, DOC) && Applied(b, after, DOC) == Base(after, DOC) == 1.0
  {
    HalfPaidApps(b, before);
    HalfPaidBase(b, before);
    assert EntityEq(b, before, after, DOC, 0.5);
    BaseForeseen(b, before, after, DOC, 0.5);
    TotalWhole(b, before, after, DOC, 0.5);
    AppliedTotal(b, before, after, DOC, 0.5);
    HalfCents();
  }
}
