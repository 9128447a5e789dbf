/** Ledger documents: what is saved, and what a document is worth to its counterparty.
    Money is a whole number of cents; a date is a day number. */
module Documents {
  import opened Wrappers

  datatype DocKind =
    | Estimate | SalesOrder | Invoice | SalesReceipt | CreditMemo | RefundReceipt | Payment
    | PurchaseOrder | Bill | BillPayment | VendorCredit | Purchase | Deposit | JournalEntry
    | RawMaterialReceipt | Build | InventoryAdjustment | BankLine | Settlement

  /** A contract never posts, and an application to one is a link, never money. */
  predicate IsContract(kind: DocKind) { kind.Estimate? || kind.SalesOrder? || kind.PurchaseOrder? }

  datatype ContactKind = Customer | Vendor
  datatype Contact = Contact(kind: ContactKind, id: string)

  datatype LineKind = Item | AccountLine | Discount | Shipping | Description | JournalLine
  datatype DocLine = DocLine(kind: LineKind, amount: int, lineNo: int := 1, qty: Option<real> := None)

  datatype Application = Application(target: string, targetKind: DocKind, amount: int)

  datatype Document = Document(
    id: string, kind: DocKind, number: Option<string>, date: int, due: Option<int>, contact: Option<Contact>,
    lines: seq<DocLine>, tax: Option<int>, applications: seq<Application>, unapplied: int,
    isVoided: bool, memo: Option<string>)

  function LineWorth(line: DocLine): int {
    match line.kind
    case Item => line.amount
    case Shipping => line.amount
    case AccountLine => line.amount
    case Discount => -line.amount
    case Description => 0
    case JournalLine => 0
  }

  function LinesWorth(lines: seq<DocLine>, n: nat): int
    requires n <= |lines|
  {
    if n == 0 then 0 else LinesWorth(lines, n - 1) + LineWorth(lines[n - 1])
  }

  /** Lines less discounts, plus tax. */
  function DocumentTotal(doc: Document): int {
    LinesWorth(doc.lines, |doc.lines|) + (match doc.tax case Some(tax) => tax case None => 0)
  }

  /** A document's last version: voided, the reason in front of its memo. */
  function VoidedCopy(doc: Document, reason: string): Document {
    doc.(isVoided := true,
        memo := Some("Voided: " + reason +
            (if doc.memo.Some? && doc.memo.value != "" then ". " + doc.memo.value else "")))
  }

  /** `document_total`. */
  method ComputeTotal(doc: Document) returns (total: int)
    ensures total == DocumentTotal(doc)
  {
    total := 0;
    for i := 0 to |doc.lines|
      invariant total == LinesWorth(doc.lines, i)
    {
      match doc.lines[i].kind {
        case Item => total := total + doc.lines[i].amount;
        case Shipping => total := total + doc.lines[i].amount;
        case AccountLine => total := total + doc.lines[i].amount;
        case Discount => total := total - doc.lines[i].amount;
        case Description =>
        case JournalLine =>
      }
    }
    if doc.tax.Some? { total := total + doc.tax.value; }
  }
}
