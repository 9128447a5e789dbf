/** A recorded book of linked entities. The shape of every entity (its lines, references,
    quantities and percentages) never changes under scrubbing and lives in `Book`; every
    money figure is addressed by the place it sits in and lives in an `Amounts` map. A
    figure that is absent, or is not a number, has no entry in the map. */
module FixtureBook {
  import opened Cents
  import opened Wrappers

  datatype Kind =
    | Invoice | SalesReceipt | CreditMemo | RefundReceipt | Estimate
    | Bill | VendorCredit | Purchase | PurchaseOrder
    | Payment | BillPayment | JournalEntry | Deposit
    | Customer | Vendor | Account | OtherKind(name: string)

  datatype Key = Key(kind: Kind, id: string)

  /** `LINE_DOCS`. */
  predicate IsLineDoc(kind: Kind) {
    kind.Invoice? || kind.SalesReceipt? || kind.CreditMemo? || kind.RefundReceipt? || kind.Estimate?
    || kind.Bill? || kind.VendorCredit? || kind.Purchase? || kind.PurchaseOrder?
  }

  /** `PAYERS`. */
  predicate IsPayer(kind: Kind) { kind.Payment? || kind.BillPayment? }

  /** The target kind a payer's line counts against its total. */
  predicate Negates(payer: Kind, target: Kind) {
    (payer.Payment? && target.CreditMemo?) || (payer.BillPayment? && target.VendorCredit?)
  }

  datatype Detail = SubTotal | Discount | Group | Plain
  datatype Side = Debit | Credit

  /** `percent` is the discount percentage of a percent-based discount; `linked` the one
      transaction the line names, when it names exactly one. */
  datatype Line = Line(
    detail: Detail, linked: Option<Key>, qty: Option<real>, isTaxable: bool,
    percent: Option<real>, posting: Option<Side>, subs: seq<Line>)

  datatype TaxLine = TaxLine(percent: Option<real>)

  datatype Entity = Entity(
    lines: seq<Line>, tax: Option<seq<TaxLine>>, taxInclusive: bool,
    customer: Option<string>, vendor: Option<string>, parent: Option<string>, rate: Option<real>)

  datatype HeadName =
    | TotalAmt | DepositPaid | Balance | RemainingCredit | UnappliedAmt
    | HomeBalance | HomeTotalAmt
    | BalanceWithJobs | CurrentBalance | CurrentBalanceWithSubAccounts

  datatype Field =
    | Head(key: Key, name: HeadName)
    | LineAmount(key: Key, line: nat)
    | LinePrice(key: Key, line: nat)
    | SubAmount(key: Key, line: nat, sub: nat)
    | SubPrice(key: Key, line: nat, sub: nat)
    | TaxAmount(key: Key, line: nat)
    | TaxBase(key: Key, line: nat)
    | TotalTax(key: Key)
    | CashBack(key: Key)
    | Elsewhere(key: Key, path: string, price: bool)

  /** `PRICE_KEYS`: figures that keep their own decimal places. */
  predicate IsPrice(f: Field) {
    f.LinePrice? || f.SubPrice? || (f.Elsewhere? && f.price)
  }

  type Amounts = map<Field, real>

  /** `keys` is the sorted enumeration of the entities; `places` the decimal places of a price. */
  datatype Book = Book(keys: seq<Key>, entities: map<Key, Entity>, places: map<Field, nat>) {
    ghost predicate Valid() {
      && (forall i, j :: 0 <= i < j < |keys| ==> keys[i] != keys[j])
      && (forall k :: k in keys <==> k in entities)
    }

    function Lines(k: Key): seq<Line> { if k in entities then entities[k].lines else [] }

    function TaxLines(k: Key): seq<TaxLine> {
      if k in entities && entities[k].tax.Some? then entities[k].tax.value else []
    }
  }

  /** An amount, or zero where there is none. */
  function Get(am: Amounts, f: Field): real { if f in am then am[f] else 0.0 }

  /** Quantity times price, to the cent. */
  function Extended(qty: real, price: real): real { Q2(qty * price) }

  function PercentOf(x: real, percent: real): real { Q2(x * percent / 100.0) }

  /** `_is_leaf`. */
  predicate IsLeaf(line: Line) { line.detail.Group? || line.detail.Plain? }

  // ---- Payments and what they pay ----

  /** The in-book target a payer's line is applied to, by `_applications`. */
  function AppTarget(b: Book, fields: set<Field>, payer: Key, i: nat): Option<Key> {
    if IsPayer(payer.kind) && i < |b.Lines(payer)| && LineAmount(payer, i) in fields then
      match b.Lines(payer)[i].linked
      case Some(t) => if t in b.entities && Head(t, TotalAmt) in fields then Some(t) else None
      case None => None
    else None
  }

  datatype LineRef = LineRef(payer: Key, line: nat)

  /** The applications to `t` among the first `n` entities and the first `m` lines of the next. */
  function AppsUpTo(b: Book, fields: set<Field>, t: Key, n: nat, m: nat): (refs: seq<LineRef>)
    requires n <= |b.keys| && (m > 0 ==> n < |b.keys|)
    decreases n, m
  {
    if m > 0 then
      var refs := AppsUpTo(b, fields, t, n, m - 1);
      if AppTarget(b, fields, b.keys[n], m - 1) == Some(t) then refs + [LineRef(b.keys[n], m - 1)] else refs
    else if n > 0 then AppsUpTo(b, fields, t, n - 1, |b.Lines(b.keys[n - 1])|)
    else []
  }

  function Apps(b: Book, fields: set<Field>, t: Key): seq<LineRef> { AppsUpTo(b, fields, t, |b.keys|, 0) }

  function AppAmounts(am: Amounts, refs: seq<LineRef>): (s: seq<real>)
    ensures |s| == |refs|
  {
    seq(|refs|, i requires 0 <= i < |refs| => Get(am, LineAmount(refs[i].payer, refs[i].line)))
  }

  function Applied(b: Book, am: Amounts, t: Key): real { Sum(AppAmounts(am, Apps(b, am.Keys, t))) }

  /** What a document leaves to be paid or used before applications. */
  function Base(am: Amounts, k: Key): real { Get(am, Head(k, TotalAmt)) - Get(am, Head(k, DepositPaid)) }

  // ---- Figures that are sums of other figures ----

  function SubValues(b: Book, am: Amounts, k: Key, i: nat): seq<real>
    requires i < |b.Lines(k)|
  {
    seq(|b.Lines(k)[i].subs|, j requires 0 <= j < |b.Lines(k)[i].subs| => Get(am, SubAmount(k, i, j)))
  }

  /** What each leaf line contributes: its own amount or nothing. */
  function LeafValues(b: Book, am: Amounts, k: Key): (s: seq<real>)
    ensures |s| == |b.Lines(k)|
  {
    seq(|b.Lines(k)|, i requires 0 <= i < |b.Lines(k)| =>
      if IsLeaf(b.Lines(k)[i]) then Get(am, LineAmount(k, i)) else 0.0)
  }

  function TaxableValues(b: Book, am: Amounts, k: Key): (s: seq<real>)
    ensures |s| == |b.Lines(k)|
  {
    seq(|b.Lines(k)|, i requires 0 <= i < |b.Lines(k)| =>
      if IsLeaf(b.Lines(k)[i]) && b.Lines(k)[i].isTaxable then Get(am, LineAmount(k, i)) else 0.0)
  }

  function DiscountValues(b: Book, am: Amounts, k: Key): (s: seq<real>)
    ensures |s| == |b.Lines(k)|
  {
    seq(|b.Lines(k)|, i requires 0 <= i < |b.Lines(k)| =>
      if b.Lines(k)[i].detail.Discount? then Get(am, LineAmount(k, i)) else 0.0)
  }

  function TaxValues(b: Book, am: Amounts, k: Key): (s: seq<real>)
    ensures |s| == |b.TaxLines(k)|
  {
    seq(|b.TaxLines(k)|, i requires 0 <= i < |b.TaxLines(k)| => Get(am, TaxAmount(k, i)))
  }

  function SideValues(b: Book, am: Amounts, k: Key, side: Side): (s: seq<real>)
    ensures |s| == |b.Lines(k)|
  {
    seq(|b.Lines(k)|, i requires 0 <= i < |b.Lines(k)| =>
      if b.Lines(k)[i].posting == Some(side) then Get(am, LineAmount(k, i)) else 0.0)
  }

  /** A credit a payment uses up counts against the payment's total. */
  predicate UsesCredit(b: Book, payer: Key, i: nat)
    requires i < |b.Lines(payer)|
  {
    var t := b.Lines(payer)[i].linked;
    t.Some? && Negates(payer.kind, t.value.kind)
  }

  function Signed(x: real, negative: bool): real { if negative then -x else x }

  function PayerValues(b: Book, am: Amounts, k: Key): (s: seq<real>)
    ensures |s| == |b.Lines(k)|
  {
    seq(|b.Lines(k)|, i requires 0 <= i < |b.Lines(k)| =>
      Signed(Get(am, LineAmount(k, i)), UsesCredit(b, k, i)))
  }

  function DepositValues(b: Book, am: Amounts, k: Key): (s: seq<real>)
    ensures |s| == |b.Lines(k)|
  {
    seq(|b.Lines(k)|, i requires 0 <= i < |b.Lines(k)| => Get(am, LineAmount(k, i)))
  }

  /** The in-book transaction with a total that a deposit's line brings to the bank. */
  function DepositTarget(b: Book, fields: set<Field>, k: Key, i: nat): Option<Key> {
    if i < |b.Lines(k)| then
      match b.Lines(k)[i].linked
      case Some(t) => if t in b.entities && Head(t, TotalAmt) in fields then Some(t) else None
      case None => None
    else None
  }

  datatype OpenItem = OpenItem(contact: Key, field: Field, negative: bool)

  function NamedContact(kind: Kind, ref: Option<string>, field: Field, negative: bool): Option<OpenItem> {
    if ref.Some? then Some(OpenItem(Key(kind, ref.value), field, negative)) else None
  }

  /** The contact whose open balance a document is part of, and by which figure. */
  function OpenItemOf(b: Book, doc: Key): Option<OpenItem> {
    if doc !in b.entities then None
    else
      var e := b.entities[doc];
      match doc.kind
      case Invoice => NamedContact(Customer, e.customer, Head(doc, Balance), false)
      case CreditMemo => NamedContact(Customer, e.customer, Head(doc, Balance), true)
      case Payment => NamedContact(Customer, e.customer, Head(doc, UnappliedAmt), true)
      case Bill => NamedContact(Vendor, e.vendor, Head(doc, Balance), false)
      case VendorCredit => NamedContact(Vendor, e.vendor, Head(doc, Balance), true)
      case _ => None
  }

  /** What document `doc` adds to the open balance of `contact`. */
  function OpenTerm(b: Book, am: Amounts, doc: Key, contact: Key): real {
    match OpenItemOf(b, doc)
    case Some(item) => if item.contact == contact then Signed(Get(am, item.field), item.negative) else 0.0
    case None => 0.0
  }

  function OpenTerms(b: Book, am: Amounts, contact: Key): (s: seq<real>)
    ensures |s| == |b.keys|
  {
    seq(|b.keys|, j requires 0 <= j < |b.keys| => OpenTerm(b, am, b.keys[j], contact))
  }

  // ---- Trees of accounts and of customers with jobs ----

  datatype Rollup = Rollup(kind: Kind, own: HeadName, total: HeadName)

  const CUSTOMERS := Rollup(Customer, Balance, BalanceWithJobs)
  const ACCOUNTS := Rollup(Account, CurrentBalance, CurrentBalanceWithSubAccounts)

  predicate IsChild(b: Book, k: Key, c: Key) {
    c in b.entities && c.kind == k.kind && b.entities[c].parent == Some(k.id)
  }

  /** The children's totals, as the rule adds them up. */
  function ChildTotals(b: Book, am: Amounts, t: Rollup, k: Key): (s: seq<real>)
    ensures |s| == |b.keys|
  {
    seq(|b.keys|, j requires 0 <= j < |b.keys| =>
      if IsChild(b, k, b.keys[j]) then Get(am, Head(b.keys[j], t.total)) else 0.0)
  }
}
