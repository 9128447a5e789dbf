/** What a scrubbed book looks like: one equation for every figure, saying how the new
    figure follows from the old one, from the entity's factor and from the other new
    figures. `out` holds the figures written so far; an equation, once established, only
    reads figures that are already written. */
module ScrubSpec {
  import opened Cents
  import opened Wrappers
  import opened FixtureBook
  import Allocate

  /** `leaf`: a free amount scaled and rounded, and moved a cent if that left it equal. */
  function Scaled(amount: real, f: real): real {
    var scaled := Q2(amount * f);
    if scaled == amount && amount != 0.0 then scaled + (if amount > 0.0 then 1.0 else -1.0) else scaled
  }

  /** What a figure differed from its formula by, scaled. */
  function Residual(amount: real, formula: real, f: real): real { Q2((amount - formula) * f) }

  /** `derived`: the new formula plus whatever the old figure differed from the old formula, scaled. */
  function Derived(amount: real, newFormula: real, oldFormula: real, f: real): real {
    newFormula + Residual(amount, oldFormula, f)
  }

  function Pow10(n: nat): (r: real)
    ensures r > 0.0
  {
    if n == 0 then 1.0 else 10.0 * Pow10(n - 1)
  }

  /** One unit in a price's last decimal place, in cents. */
  function PriceStep(b: Book, price: Field): (r: real)
    ensures r > 0.0
  {
    var places := if price in b.places then b.places[price] else 2;
    100.0 / Pow10(if places < 2 then 2 else places)
  }

  function Quantize(x: real, step: real): real
    requires step > 0.0
  {
    Round(x / step) as real * step
  }

  /** Moves a price by its last place, at most `n` times, while the line's amount comes out unchanged. */
  function NudgePrice(qty: real, amount: real, residual: real, price: real, step: real, n: nat): (real, real)
    decreases n
  {
    var newAmount := Extended(qty, price) + residual;
    if n == 0 || amount == 0.0 || newAmount != amount then (price, newAmount)
    else NudgePrice(qty, amount, residual, price + step, step, n - 1)
  }

  /** The new price and amount of a line that has a quantity and a price. */
  function Reprice(qty: real, amount: real, price: real, step: real, f: real): (real, real)
    requires step > 0.0
  {
    var residual := Residual(amount, Extended(qty, price), f);
    NudgePrice(qty, amount, residual, Quantize(price * f, step), if price >= 0.0 then step else -step, 5)
  }

  /** What is applied to a document after scrubbing: paid in full stays so, nothing stays
      nothing, and part paid stays strictly part paid. */
  function AppliedNew(applied: real, baseOld: real, baseNew: real, f: real): real {
    if applied == baseOld then baseNew
    else if applied == 0.0 then 0.0
    else if baseOld != 0.0 then
      var share := Q2(applied * baseNew / baseOld);
      if 0.0 < applied < baseOld && baseNew >= 2.0 then
        var atLeast := if share < 1.0 then 1.0 else share;
        if atLeast > baseNew - 1.0 then baseNew - 1.0 else atLeast
      else share
    else Q2(applied * f)
  }

  // ---- The equations ----

  predicate LeafEq(before: Amounts, out: Amounts, fld: Field, f: real) {
    fld in before ==> fld in out && out[fld] == Scaled(before[fld], f)
  }

  predicate DerivedEq(before: Amounts, out: Amounts, fld: Field, newFormula: real, oldFormula: real, f: real) {
    fld in before ==> fld in out && out[fld] == Derived(before[fld], newFormula, oldFormula, f)
  }

  predicate Priced(before: Amounts, amount: Field, price: Field, qty: Option<real>) {
    amount in before && price in before && qty.Some? && qty.value != 0.0
  }

  predicate ItemEq(b: Book, before: Amounts, out: Amounts, amount: Field, price: Field, qty: Option<real>, f: real) {
    if Priced(before, amount, price, qty) then
      && amount in out && price in out
      && (out[price], out[amount]) == Reprice(qty.value, before[amount], before[price], PriceStep(b, price), f)
    else LeafEq(before, out, amount, f)
  }

  /** A leaf's contribution as the scrubber adds it up: a group with no amount of its own counts its sub-lines. */
  function LineValue(b: Book, am: Amounts, k: Key, i: nat): real
    requires i < |b.Lines(k)|
  {
    if b.Lines(k)[i].detail.Group? && LineAmount(k, i) !in am then Sum(SubValues(b, am, k, i))
    else Get(am, LineAmount(k, i))
  }

  function LineValues(b: Book, am: Amounts, k: Key): (s: seq<real>)
    ensures |s| == |b.Lines(k)|
  {
    seq(|b.Lines(k)|, i requires 0 <= i < |b.Lines(k)| =>
      if IsLeaf(b.Lines(k)[i]) then LineValue(b, am, k, i) else 0.0)
  }

  function TaxableLineValues(b: Book, am: Amounts, k: Key): (s: seq<real>)
    ensures |s| == |b.Lines(k)|
  {
    seq(|b.Lines(k)|, i requires 0 <= i < |b.Lines(k)| =>
      if IsLeaf(b.Lines(k)[i]) && b.Lines(k)[i].isTaxable then LineValue(b, am, k, i) else 0.0)
  }

  function LeafSum(b: Book, am: Amounts, k: Key): real { Sum(LineValues(b, am, k)) }

  function TaxableSum(b: Book, am: Amounts, k: Key): real { Sum(TaxableLineValues(b, am, k)) }

  predicate SubEq(b: Book, before: Amounts, out: Amounts, k: Key, i: nat, j: nat, f: real)
    requires i < |b.Lines(k)| && j < |b.Lines(k)[i].subs|
  {
    ItemEq(b, before, out, SubAmount(k, i, j), SubPrice(k, i, j), b.Lines(k)[i].subs[j].qty, f)
  }

  /** A group or item line. */
  predicate LeafLineEq(b: Book, before: Amounts, out: Amounts, k: Key, i: nat, f: real)
    requires i < |b.Lines(k)|
  {
    var line := b.Lines(k)[i];
    match line.detail
    case Group =>
      && (forall j: nat :: j < |line.subs| ==> SubEq(b, before, out, k, i, j, f))
      && DerivedEq(before, out, LineAmount(k, i), Sum(SubValues(b, out, k, i)), Sum(SubValues(b, before, k, i)), f)
    case Plain => ItemEq(b, before, out, LineAmount(k, i), LinePrice(k, i), line.qty, f)
    case _ => true
  }

  /** A subtotal or discount line. */
  predicate SummaryLineEq(b: Book, before: Amounts, out: Amounts, k: Key, i: nat, f: real)
    requires i < |b.Lines(k)|
  {
    var line := b.Lines(k)[i];
    match line.detail
    case SubTotal => DerivedEq(before, out, LineAmount(k, i), LeafSum(b, out, k), LeafSum(b, before, k), f)
    case Discount =>
      if line.percent.Some? then
        DerivedEq(before, out, LineAmount(k, i),
          PercentOf(LeafSum(b, out, k), line.percent.value), PercentOf(LeafSum(b, before, k), line.percent.value), f)
      else LeafEq(before, out, LineAmount(k, i), f)
    case _ => true
  }

  predicate LinesEq(b: Book, before: Amounts, out: Amounts, k: Key, f: real) {
    && (forall i: nat :: i < |b.Lines(k)| ==> LeafLineEq(b, before, out, k, i, f))
    && (forall i: nat :: i < |b.Lines(k)| ==> SummaryLineEq(b, before, out, k, i, f))
  }

  predicate TaxLineEq(b: Book, before: Amounts, out: Amounts, k: Key, i: nat, f: real)
    requires i < |b.TaxLines(k)|
  {
    var percent := b.TaxLines(k)[i].percent;
    && DerivedEq(before, out, TaxBase(k, i), TaxableSum(b, out, k), TaxableSum(b, before, k), f)
    && if TaxBase(k, i) in before && percent.Some? then
         DerivedEq(before, out, TaxAmount(k, i),
           PercentOf(Get(out, TaxBase(k, i)), percent.value), PercentOf(before[TaxBase(k, i)], percent.value), f)
       else LeafEq(before, out, TaxAmount(k, i), f)
  }

  predicate TaxEq(b: Book, before: Amounts, out: Amounts, k: Key, f: real) {
    && (forall i: nat :: i < |b.TaxLines(k)| ==> TaxLineEq(b, before, out, k, i, f))
    && (k in b.entities && b.entities[k].tax.Some? ==>
          DerivedEq(before, out, TotalTax(k), Sum(TaxValues(b, out, k)), Sum(TaxValues(b, before, k)), f))
  }

  /** The tax in the formula of a document's total. */
  function TaxOf(b: Book, am: Amounts, k: Key): real {
    if k !in b.entities || b.entities[k].tax.None? || b.entities[k].taxInclusive then 0.0
    else if TotalTax(k) in am then am[TotalTax(k)]
    else Sum(TaxValues(b, am, k))
  }

  function TotalFormula(b: Book, am: Amounts, k: Key): real {
    LeafSum(b, am, k) - Sum(DiscountValues(b, am, k)) + TaxOf(b, am, k)
  }

  predicate LineDocEq(b: Book, before: Amounts, out: Amounts, k: Key, f: real) {
    && LinesEq(b, before, out, k, f)
    && TaxEq(b, before, out, k, f)
    && DerivedEq(before, out, Head(k, TotalAmt), TotalFormula(b, out, k), TotalFormula(b, before, k), f)
    && LeafEq(before, out, Head(k, DepositPaid), f)
  }

  /** A journal line on one side that carries an amount. */
  predicate OnSide(b: Book, fields: set<Field>, k: Key, side: Side, i: nat) {
    i < |b.Lines(k)| && b.Lines(k)[i].posting == Some(side) && LineAmount(k, i) in fields
  }

  /** Those among the first `n` lines. */
  function SideLines(b: Book, fields: set<Field>, k: Key, side: Side, n: nat): (s: seq<nat>)
    ensures forall i: nat :: i in s <==> i < n && OnSide(b, fields, k, side, i)
  {
    if n == 0 then []
    else
      var s := SideLines(b, fields, k, side, n - 1);
      if OnSide(b, fields, k, side, n - 1) then s + [n - 1] else s
  }

  function LineAmounts(am: Amounts, k: Key, lines: seq<nat>): (s: seq<real>)
    ensures |s| == |lines|
  {
    seq(|lines|, i requires 0 <= i < |lines| => Get(am, LineAmount(k, lines[i])))
  }

  function JournalSide(b: Book, fields: set<Field>, am: Amounts, k: Key, side: Side): seq<real> {
    LineAmounts(am, k, SideLines(b, fields, k, side, |b.Lines(k)|))
  }

  function DebitNew(debitOld: real, f: real): real {
    var scaled := Q2(debitOld * f);
    if scaled == debitOld && debitOld != 0.0 then scaled + 1.0 else scaled
  }

  predicate JournalEq(b: Book, before: Amounts, out: Amounts, k: Key, f: real) {
    var debits, credits := JournalSide(b, before.Keys, before, k, Debit),
        JournalSide(b, before.Keys, before, k, Credit);
    var debitNew := DebitNew(Sum(debits), f);
    var creditNew := Derived(Sum(credits), debitNew, Sum(debits), f);
    && (forall i: nat :: i < |b.Lines(k)| ==> LineAmount(k, i) in before ==> LineAmount(k, i) in out)
    && (forall i: nat :: i < |b.Lines(k)| && b.Lines(k)[i].posting.None? ==> LeafEq(before, out, LineAmount(k, i), f))
    && JournalSide(b, before.Keys, out, k, Debit) == Allocate.Allocation(debits, debitNew)
    && JournalSide(b, before.Keys, out, k, Credit) == Allocate.Allocation(credits, creditNew)
    && DerivedEq(before, out, Head(k, TotalAmt), debitNew, Sum(debits), f)
  }

  function TargetApplied(b: Book, before: Amounts, out: Amounts, k: Key, f: real): real {
    AppliedNew(Applied(b, before, k), Base(before, k), Base(out, k), f)
  }

  /** A document's applications, balance and remaining credit. */
  predicate BalanceEq(b: Book, before: Amounts, out: Amounts, k: Key, f: real) {
    var refs := Apps(b, before.Keys, k);
    var oldOpen, newOpen := Base(before, k) - Applied(b, before, k), Base(out, k) - TargetApplied(b, before, out, k, f);
    && (forall r :: r in refs ==> LineAmount(r.payer, r.line) in out)
    && AppAmounts(out, refs) == Allocate.Allocation(AppAmounts(before, refs), TargetApplied(b, before, out, k, f))
    && DerivedEq(before, out, Head(k, Balance), newOpen, oldOpen, f)
    && (if Head(k, Balance) in before then
          DerivedEq(before, out, Head(k, RemainingCredit), Get(out, Head(k, Balance)), before[Head(k, Balance)], f)
        else DerivedEq(before, out, Head(k, RemainingCredit), newOpen, oldOpen, f))
  }

  /** Whether a payer's line is rewritten with the document it pays. */
  predicate IsApplication(b: Book, fields: set<Field>, k: Key, i: nat) {
    AppTarget(b, fields, k, i).Some? && IsLineDoc(AppTarget(b, fields, k, i).value.kind)
  }

  predicate PayerEq(b: Book, before: Amounts, out: Amounts, k: Key, f: real) {
    && (forall i: nat :: i < |b.Lines(k)| && IsApplication(b, before.Keys, k, i) ==> LineAmount(k, i) in out)
    && (forall i: nat :: i < |b.Lines(k)| && !IsApplication(b, before.Keys, k, i) ==>
        LeafEq(before, out, LineAmount(k, i), f))
    && LeafEq(before, out, Head(k, UnappliedAmt), f)
    && DerivedEq(before, out, Head(k, TotalAmt),
         Sum(PayerValues(b, out, k)) + Get(out, Head(k, UnappliedAmt)),
         Sum(PayerValues(b, before, k)) + Get(before, Head(k, UnappliedAmt)), f)
  }

  /** Kinds whose total is final before deposits are scrubbed. */
  predicate IsSettled(kind: Kind) { IsLineDoc(kind) || kind.JournalEntry? || IsPayer(kind) }

  /** Where an entity's turn comes. */
  function PlaceFrom(keys: seq<Key>, k: Key): (n: nat)
    ensures n <= |keys| && (n < |keys| ==> keys[n] == k)
    ensures forall i :: 0 <= i < n ==> keys[i] != k
  {
    if keys == [] || keys[0] == k then 0 else 1 + PlaceFrom(keys[1..], k)
  }

  function Place(b: Book, k: Key): nat { PlaceFrom(b.keys, k) }

  /** The total of `t` is scrubbed before the lines of deposit `k` are. */
  predicate ScrubbedBefore(b: Book, t: Key, k: Key) {
    IsSettled(t.kind) || (t.kind.Deposit? && Place(b, t) < Place(b, k))
  }

  /** A deposit's line follows the total it brings, as that stands when the deposit's turn comes. */
  predicate DepositLineEq(b: Book, before: Amounts, out: Amounts, k: Key, i: nat, f: real)
    requires i < |b.Lines(k)|
  {
    match DepositTarget(b, before.Keys, k, i)
    case Some(t) =>
      var total := Head(t, TotalAmt);
      if ScrubbedBefore(b, t, k) then
        total in out && DerivedEq(before, out, LineAmount(k, i), out[total], Get(before, total), f)
      else DerivedEq(before, out, LineAmount(k, i), Get(before, total), Get(before, total), f)
    case None => LeafEq(before, out, LineAmount(k, i), f)
  }

  predicate DepositEq(b: Book, before: Amounts, out: Amounts, k: Key, f: real) {
    && (forall i: nat :: i < |b.Lines(k)| ==> DepositLineEq(b, before, out, k, i, f))
    && LeafEq(before, out, CashBack(k), f)
    && DerivedEq(before, out, Head(k, TotalAmt),
         Sum(DepositValues(b, out, k)) - Get(out, CashBack(k)),
         Sum(DepositValues(b, before, k)) - Get(before, CashBack(k)), f)
  }

  predicate ContactEq(b: Book, before: Amounts, out: Amounts, k: Key, f: real) {
    DerivedEq(before, out, Head(k, Balance), Sum(OpenTerms(b, out, k)), Sum(OpenTerms(b, before, k)), f)
  }

  /** The recursion limit of `_rollup`. */
  const MAX_DEPTH: nat := 64

  /** What an entity hands up to its parent: its total or, where it has none, its own figure and what its children
      hand up. `n` bounds how far down it looks; `fields` are the figures the original states. */
  function Carried(b: Book, fields: set<Field>, am: Amounts, t: Rollup, k: Key, n: nat): real
    decreases n, 0, |b.keys|
  {
    if Head(k, t.total) in fields then Get(am, Head(k, t.total))
    else Get(am, Head(k, t.own)) + (if n == 0 then 0.0 else Sum(CarriedUp(b, fields, am, t, k, n - 1)))
  }

  /** What each child hands up. */
  function CarriedUp(b: Book, fields: set<Field>, am: Amounts, t: Rollup, k: Key, n: nat): (s: seq<real>)
    ensures |s| == |b.keys|
    decreases n, 1, |b.keys|
  {
    seq(|b.keys|, j requires 0 <= j < |b.keys| =>
      if IsChild(b, k, b.keys[j]) then Carried(b, fields, am, t, b.keys[j], n) else 0.0)
  }

  /** An entity's own figure and what its children hand up. */
  function RollupFormula(b: Book, fields: set<Field>, am: Amounts, t: Rollup, k: Key): real {
    Get(am, Head(k, t.own)) + Sum(CarriedUp(b, fields, am, t, k, MAX_DEPTH))
  }

  predicate RollupEq(b: Book, before: Amounts, out: Amounts, t: Rollup, k: Key, f: real) {
    DerivedEq(before, out, Head(k, t.total), RollupFormula(b, before.Keys, out, t, k),
      RollupFormula(b, before.Keys, before, t, k), f)
  }

  /** Following the parents down from `k` takes at most `n` steps. */
  predicate Within(b: Book, k: Key, n: nat)
    decreases n, |b.keys|
  {
    forall c {:trigger IsChild(b, k, c)} :: c in b.entities && IsChild(b, k, c) ==> n > 0 && Within(b, c, n - 1)
  }

  /** The entities of a kind form trees no deeper than the recursion limit. */
  predicate Forest(b: Book, kind: Kind) {
    forall k {:trigger Within(b, k, MAX_DEPTH)} :: k in b.entities && k.kind == kind ==> Within(b, k, MAX_DEPTH)
  }

  /** Following the parents down from `k` comes to an end, however far down. */
  ghost predicate Ends(b: Book, k: Key) { exists n: nat {:trigger Within(b, k, n)} :: Within(b, k, n) }

  ghost predicate EndsUpTo(b: Book, kind: Kind, n: nat)
    requires n <= |b.keys|
  {
    n == 0 || (EndsUpTo(b, kind, n - 1) && (b.keys[n - 1].kind == kind ==> Ends(b, b.keys[n - 1])))
  }

  /** No parents of a kind run in circles. */
  ghost predicate Grounded(b: Book, kind: Kind) { EndsUpTo(b, kind, |b.keys|) }

  lemma {:induction false} EndsAt(b: Book, kind: Kind, i: nat, n: nat)
    requires i < n <= |b.keys| && EndsUpTo(b, kind, n) && b.keys[i].kind == kind
    ensures Ends(b, b.keys[i])
  {
    if i < n - 1 { EndsAt(b, kind, i, n - 1); }
  }

  lemma GroundedEnds(b: Book, k: Key)
    requires b.Valid() && k in b.entities && Grounded(b, k.kind)
    ensures Ends(b, k)
  {
    var i :| 0 <= i < |b.keys| && b.keys[i] == k;
    EndsAt(b, k.kind, i, |b.keys|);
  }

  lemma {:induction false} ForestEnds(b: Book, kind: Kind, n: nat)
    requires b.Valid() && Forest(b, kind) && n <= |b.keys|
    ensures EndsUpTo(b, kind, n)
  {
    if n > 0 {
      ForestEnds(b, kind, n - 1);
      assert b.keys[n - 1] in b.keys;
      if b.keys[n - 1].kind == kind { assert Within(b, b.keys[n - 1], MAX_DEPTH); }
    }
  }

  lemma ForestGrounded(b: Book, kind: Kind)
    requires b.Valid()
    ensures Forest(b, kind) ==> Grounded(b, kind)
  {
    if Forest(b, kind) { ForestEnds(b, kind, |b.keys|); }
  }

  /** A total over a tree: whole cents in any case, and the rollup's equation when the entities form trees. */
  predicate RolledUp(b: Book, before: Amounts, out: Amounts, t: Rollup, k: Key, f: real) {
    && (t == ACCOUNTS ==> LeafEq(before, out, Head(k, t.own), f))
    && (Head(k, t.total) in before ==> Head(k, t.total) in out && Whole(out[Head(k, t.total)]))
    && (Forest(b, t.kind) ==> RollupEq(b, before, out, t, k, f))
  }

  // ---- Which step writes which figure ----

  const REST := 7

  /** The step of a run that writes a figure: 1 documents and journals, 2 applications and
      balances, 3 payers, 4 deposits, 5 contacts, 6 rollups, 7 everything left. */
  function Stage(b: Book, before: Amounts, fld: Field): nat {
    var k := fld.key;
    match fld
    case LineAmount(_, i) =>
      if i >= |b.Lines(k)| then REST
      else if IsLineDoc(k.kind) || k.kind.JournalEntry? then 1
      else if IsPayer(k.kind) then (if IsApplication(b, before.Keys, k, i) then 2 else 3)
      else if k.kind.Deposit? then 4 else REST
    case LinePrice(_, i) =>
      if IsLineDoc(k.kind) && i < |b.Lines(k)| && b.Lines(k)[i].detail.Plain?
         && Priced(before, LineAmount(k, i), fld, b.Lines(k)[i].qty) then 1 else REST
    case SubAmount(_, i, j) =>
      if IsLineDoc(k.kind) && i < |b.Lines(k)| && b.Lines(k)[i].detail.Group? && j < |b.Lines(k)[i].subs|
      then 1 else REST
    case SubPrice(_, i, j) =>
      if IsLineDoc(k.kind) && i < |b.Lines(k)| && b.Lines(k)[i].detail.Group? && j < |b.Lines(k)[i].subs|
         && Priced(before, SubAmount(k, i, j), fld, b.Lines(k)[i].subs[j].qty) then 1 else REST
    case TaxAmount(_, i) => if IsLineDoc(k.kind) && i < |b.TaxLines(k)| then 1 else REST
    case TaxBase(_, i) => if IsLineDoc(k.kind) && i < |b.TaxLines(k)| then 1 else REST
    case TotalTax(_) => if IsLineDoc(k.kind) && k in b.entities && b.entities[k].tax.Some? then 1 else REST
    case CashBack(_) => if k.kind.Deposit? then 4 else REST
    case Elsewhere(_, _, _) => REST
    case Head(_, name) =>
      match name
      case TotalAmt =>
        if IsLineDoc(k.kind) || k.kind.JournalEntry? then 1 else if IsPayer(k.kind) then 3
        else if k.kind.Deposit? then 4 else REST
      case DepositPaid => if IsLineDoc(k.kind) then 1 else REST
      case Balance => if IsLineDoc(k.kind) then 2 else if k.kind.Customer? || k.kind.Vendor? then 5 else REST
      case RemainingCredit => if IsLineDoc(k.kind) then 2 else REST
      case UnappliedAmt => if IsPayer(k.kind) then 3 else REST
      case BalanceWithJobs => if k.kind.Customer? then 6 else REST
      case CurrentBalance => if k.kind.Account? then 6 else REST
      case CurrentBalanceWithSubAccounts => if k.kind.Account? then 6 else REST
      case HomeBalance => REST
      case HomeTotalAmt => REST
  }

  /** The entity whose turn in its stage writes a figure. */
  function Owner(b: Book, before: Amounts, fld: Field): Key {
    if Stage(b, before, fld) == 2 && fld.LineAmount? then AppTarget(b, before.Keys, fld.key, fld.line).value
    else fld.key
  }

  /** A figure in the home currency follows the figure it restates. */
  function HomeBase(fld: Field): Option<Field> {
    if fld == Head(fld.key, HomeBalance) then Some(Head(fld.key, Balance))
    else if fld == Head(fld.key, HomeTotalAmt) then Some(Head(fld.key, TotalAmt))
    else None
  }

  predicate IsHome(b: Book, before: Amounts, fld: Field) {
    && HomeBase(fld).Some? && HomeBase(fld).value in before
    && fld.key in b.entities && b.entities[fld.key].rate.Some?
  }

  function ScaledPrice(price: real, step: real, f: real): real
    requires step > 0.0
  {
    var scaled := Quantize(price * f, step);
    if scaled == price && price != 0.0 then scaled + step else scaled
  }

  /** A figure no other rule covers. */
  predicate RestEq(b: Book, before: Amounts, out: Amounts, fld: Field, f: real)
    requires fld in before
  {
    && fld in out
    && if IsHome(b, before, fld) then
         var base, rate := HomeBase(fld).value, b.entities[fld.key].rate.value;
         var baseNew := if Stage(b, before, base) < REST then Get(out, base) else before[base];
         out[fld] == Derived(before[fld], Extended(rate, baseNew), Extended(rate, before[base]), f)
       else if IsPrice(fld) then out[fld] == ScaledPrice(before[fld], PriceStep(b, fld), f)
       else out[fld] == Scaled(before[fld], f)
  }

  // ---- The whole book ----

  predicate EntityEq(b: Book, before: Amounts, out: Amounts, k: Key, f: real) {
    && (IsLineDoc(k.kind) ==> LineDocEq(b, before, out, k, f) && BalanceEq(b, before, out, k, f))
    && (k.kind.JournalEntry? ==> JournalEq(b, before, out, k, f))
    && (IsPayer(k.kind) ==> PayerEq(b, before, out, k, f))
    && (k.kind.Deposit? ==> DepositEq(b, before, out, k, f))
    && (k.kind.Customer? || k.kind.Vendor? ==> ContactEq(b, before, out, k, f))
  }

  ghost predicate EntitiesEq(b: Book, before: Amounts, out: Amounts, factor: Key -> real) {
    forall k {:trigger EntityEq(b, before, out, k, factor(k))} :: k in b.entities ==>
        EntityEq(b, before, out, k, factor(k))
  }

  ghost predicate TreesEq(b: Book, before: Amounts, out: Amounts, t: Rollup, factor: Key -> real) {
    forall k {:trigger RolledUp(b, before, out, t, k, factor(k))} ::
      k in b.entities && k.kind == t.kind ==> RolledUp(b, before, out, t, k, factor(k))
  }

  ghost predicate LeftOversEq(b: Book, before: Amounts, out: Amounts, factor: Key -> real) {
    forall fld {:trigger RestEq(b, before, out, fld, factor(fld.key))} ::
      fld in before && Stage(b, before, fld) == REST ==> RestEq(b, before, out, fld, factor(fld.key))
  }

  /** `after` is the scrubbed copy of `before`: the same figures, every one of them given by
      its equation. */
  ghost predicate Scrubbed(b: Book, before: Amounts, after: Amounts, factor: Key -> real) {
    && after.Keys == before.Keys
    && EntitiesEq(b, before, after, factor)
    && TreesEq(b, before, after, CUSTOMERS, factor)
    && TreesEq(b, before, after, ACCOUNTS, factor)
    && LeftOversEq(b, before, after, factor)
  }
}
