/** Open items and aging, told from the documents: which are open for how much, since when, in which column. */
module Aging {
  import opened Wrappers
  import opened Documents
  import opened OpenItems

  // ---- What a document leaves open ----

  predicate InForce(doc: Document, asOf: int) { doc.date <= asOf && !doc.isVoided }

  predicate MovesMoney(a: Application) {
    a.targetKind != DocKind.Estimate && a.targetKind != DocKind.SalesOrder && a.targetKind != DocKind.PurchaseOrder
  }

  /** What applications give to any of `ids`; to anything, for `None`. */
  function Given(apps: seq<Application>, ids: Option<set<string>>, n: nat): int
    requires n <= |apps|
  {
    if n == 0 then 0
    else
      var a := apps[n - 1];
      Given(apps, ids, n - 1) + (if MovesMoney(a) && (ids.None? || a.target in ids.value) then a.amount else 0)
  }

  /** What the documents of two kinds that are in force give to `id`. */
  function Received(docs: seq<Document>, kinds: set<DocKind>, asOf: int, id: string, n: nat): int
    requires n <= |docs|
  {
    if n == 0 then 0
    else
      var d := docs[n - 1];
      Received(docs, kinds, asOf, id, n - 1) +
      (if d.kind in kinds && InForce(d, asOf) then Given(d.applications, Some({id}), |d.applications|) else 0)
  }

  /** The documents dated later than `asOf`. */
  function NotYet(docs: seq<Document>, asOf: int): set<string> {
    set i | 0 <= i < |docs| && docs[i].date > asOf :: docs[i].id
  }

  /** What a document in force leaves open: an invoice or bill its total less what is paid to it; a credit the
      opposite of its total less what it has given away and what payments drew on it, which they record as negative;
      a bill payment the opposite of what it has not given to a bill that exists. */
  function Owed(docs: seq<Document>, book: BookSide, asOf: int, doc: Document): int {
    var paid := if book.Receivable? then {DocKind.Payment, DocKind.CreditMemo}
                else {DocKind.BillPayment, DocKind.VendorCredit};
    var opening := if book.Receivable? then DocKind.Invoice else DocKind.Bill;
    var credit := if book.Receivable? then DocKind.CreditMemo else DocKind.VendorCredit;
    var apps := doc.applications;
    if !InForce(doc, asOf) then 0
    else if doc.kind == opening then DocumentTotal(doc) - Received(docs, paid, asOf, doc.id, |docs|)
    else if doc.kind == credit then
      Given(apps, None, |apps|) - Received(docs, paid, asOf, doc.id, |docs|) - DocumentTotal(doc)
    else if doc.kind == DocKind.BillPayment && book.Payable? then
      -doc.unapplied - Given(apps, Some(NotYet(docs, asOf)), |apps|)
    else 0
  }

  lemma {:induction false} GivenToOne(apps: seq<Application>, id: string, n: nat)
    requires n <= |apps|
    ensures MovedTo(apps, id, n) == Given(apps, Some({id}), n)
  {
    if n > 0 { GivenToOne(apps, id, n - 1); }
  }

  lemma {:induction false} GivenToAll(apps: seq<Application>, n: nat)
    requires n <= |apps|
    ensures MovedAll(apps, n) == Given(apps, None, n)
  {
    if n > 0 { GivenToAll(apps, n - 1); }
  }

  lemma {:induction false} GivenToSome(apps: seq<Application>, ids: set<string>, n: nat)
    requires n <= |apps|
    ensures MovedInto(apps, ids, n) == Given(apps, Some(ids), n)
  {
    if n > 0 { GivenToSome(apps, ids, n - 1); }
  }

  lemma {:induction false} PaidIsReceived(docs: seq<Document>, book: BookSide, asOf: int, id: string, n: nat)
    requires n <= |docs|
    ensures PaidTo(docs, book, asOf, id, n) ==
            Received(docs, if book.Receivable? then {DocKind.Payment, DocKind.CreditMemo}
                           else {DocKind.BillPayment, DocKind.VendorCredit}, asOf, id, n)
  {
    if n > 0 {
      PaidIsReceived(docs, book, asOf, id, n - 1);
      GivenToOne(docs[n - 1].applications, id, |docs[n - 1].applications|);
    }
  }

  /** The open amount of the ledger's view is what the documents say is owed. */
  lemma OpenIsOwed(docs: seq<Document>, book: BookSide, asOf: int, i: nat)
    requires DistinctIds(docs) && i < |docs|
    ensures OpenAmount(docs, book, asOf, docs[i]) == Owed(docs, book, asOf, docs[i])
  {
    var doc := docs[i];
    PaidIsReceived(docs, book, asOf, doc.id, |docs|);
    ConsumedIsOwn(docs, book, asOf, i, |docs|);
    GivenToAll(doc.applications, |doc.applications|);
    LaterAreNotYet(docs, asOf);
    GivenToSome(doc.applications, NotYet(docs, asOf), |doc.applications|);
  }

  lemma {:induction false} LaterListed(docs: seq<Document>, asOf: int, i: nat, n: nat)
    requires i < n <= |docs| && DistinctIds(docs) && docs[i].date > asOf
    ensures docs[i].id in LaterIds(docs, asOf, n)
  {
    if i < n - 1 { LaterListed(docs, asOf, i, n - 1); }
  }

  lemma LaterAreNotYet(docs: seq<Document>, asOf: int)
    requires DistinctIds(docs)
    ensures LaterIds(docs, asOf, |docs|) == NotYet(docs, asOf)
  {
    LaterAreLater(docs, asOf, |docs|);
    forall id | id in NotYet(docs, asOf)
      ensures id in LaterIds(docs, asOf, |docs|)
    {
      var i :| 0 <= i < |docs| && docs[i].id == id && docs[i].date > asOf;
      LaterListed(docs, asOf, i, |docs|);
    }
  }

  /** What lines of one kind come to. */
  function OfKind(lines: seq<DocLine>, kind: LineKind, n: nat): int
    requires n <= |lines|
  {
    if n == 0 then 0 else OfKind(lines, kind, n - 1) + (if lines[n - 1].kind == kind then lines[n - 1].amount else 0)
  }

  /** A document is worth its items, accounts and shipping, less its discounts, plus its tax. */
  lemma TotalByKind(doc: Document)
    ensures var lines, n := doc.lines, |doc.lines|;
            DocumentTotal(doc) ==
            OfKind(lines, LineKind.Item, n) + OfKind(lines, LineKind.AccountLine, n) +
            OfKind(lines, LineKind.Shipping, n) - OfKind(lines, LineKind.Discount, n) +
            (if doc.tax.Some? then doc.tax.value else 0)
  {
    var lines := doc.lines;
    for n := 0 to |lines|
      invariant LinesWorth(lines, n) ==
                OfKind(lines, LineKind.Item, n) + OfKind(lines, LineKind.AccountLine, n) +
                OfKind(lines, LineKind.Shipping, n) - OfKind(lines, LineKind.Discount, n)
    {}
  }

  // ---- The list of open items ----

  /** The day a document has been owed since: its due date, else its own; a bill payment's its own. */
  function OwedSince(doc: Document, book: BookSide): int {
    if doc.due.Some? && !(book.Payable? && doc.kind.BillPayment?) then doc.due.value else doc.date
  }

  function Owner(doc: Document): string { if doc.contact.Some? then doc.contact.value.id else "" }

  /** The documents that leave something open, in their order. */
  function Showing(docs: seq<Document>, book: BookSide, asOf: int, n: nat): (s: seq<nat>)
    requires n <= |docs|
    ensures forall k :: 0 <= k < |s| ==> s[k] < n
  {
    if n == 0 then []
    else if Owed(docs, book, asOf, docs[n - 1]) == 0 then Showing(docs, book, asOf, n - 1)
    else Showing(docs, book, asOf, n - 1) + [n - 1]
  }

  /** An open item is its document: whose it is, since when it is owed, what it was worth, used and left. */
  predicate TellsItem(item: OpenDocument, docs: seq<Document>, book: BookSide, asOf: int, doc: Document) {
    && item.id == doc.id && item.kind == doc.kind && item.contact == Owner(doc)
    && item.due == OwedSince(doc, book) && item.open == Owed(docs, book, asOf, doc)
    && (if doc.kind.CreditMemo? || doc.kind.VendorCredit? then
          item.total == -DocumentTotal(doc) && item.open == item.total + item.applied
        else if doc.kind.BillPayment? then item.total == item.open && item.applied == 0
        else item.total == DocumentTotal(doc) && item.open == item.total - item.applied)
  }

  predicate TellItems(open: seq<OpenDocument>, docs: seq<Document>, book: BookSide, asOf: int, n: nat)
    requires n <= |docs|
  {
    var s := Showing(docs, book, asOf, n);
    |open| == |s| && forall k :: 0 <= k < |s| ==> TellsItem(open[k], docs, book, asOf, docs[s[k]])
  }

  lemma OneTells(docs: seq<Document>, book: BookSide, asOf: int, i: nat)
    requires DistinctIds(docs) && i < |docs| && Owed(docs, book, asOf, docs[i]) != 0
    ensures TellsItem(RowOf(docs, book, asOf, docs[i]), docs, book, asOf, docs[i])
  {
    OpenIsOwed(docs, book, asOf, i);
  }

  lemma TellNext(open: seq<OpenDocument>, item: OpenDocument, docs: seq<Document>, book: BookSide, asOf: int, n: nat)
    requires n < |docs| && TellItems(open, docs, book, asOf, n)
    ensures Owed(docs, book, asOf, docs[n]) == 0 ==> TellItems(open, docs, book, asOf, n + 1)
    ensures Owed(docs, book, asOf, docs[n]) != 0 && TellsItem(item, docs, book, asOf, docs[n]) ==>
              TellItems(open + [item], docs, book, asOf, n + 1)
  {}

  /** The open items are exactly the documents that leave something open, each told as it is. */
  lemma ItemsTell(docs: seq<Document>, book: BookSide, asOf: int, n: nat)
    requires n <= |docs| && DistinctIds(docs)
    ensures TellItems(Rows(docs, book, asOf, n), docs, book, asOf, n)
  {
    for i := 0 to n
      invariant TellItems(Rows(docs, book, asOf, i), docs, book, asOf, i)
    {
      OpenIsOwed(docs, book, asOf, i);
      TellNext(Rows(docs, book, asOf, i), RowOf(docs, book, asOf, docs[i]), docs, book, asOf, i);
      if Owed(docs, book, asOf, docs[i]) != 0 { OneTells(docs, book, asOf, i); }
    }
  }

  // ---- The columns ----

  predicate Between(days: int, low: Option<int>, high: Option<int>) {
    (low.None? || low.value <= days) && (high.None? || days <= high.value)
  }

  /** What a document of a contact (of any, for `None`) leaves open, if it is so many days past due. */
  function OwingOn(docs: seq<Document>, book: BookSide, asOf: int, contact: Option<string>, low: Option<int>,
                   high: Option<int>, doc: Document): int {
    if (contact.None? || contact.value == Owner(doc)) && Between(asOf - OwedSince(doc, book), low, high) then
      Owed(docs, book, asOf, doc)
    else 0
  }

  /** What the first `n` documents do together. */
  function Owing(docs: seq<Document>, book: BookSide, asOf: int, contact: Option<string>, low: Option<int>,
                 high: Option<int>, n: nat): int
    requires n <= |docs|
  {
    if n == 0 then 0
    else
      Owing(docs, book, asOf, contact, low, high, n - 1) +
      OwingOn(docs, book, asOf, contact, low, high, docs[n - 1])
  }

  /** A row of the report holds what is owed in each span of days past due, and in all. */
  predicate TellsColumns(row: AgingRow, docs: seq<Document>, book: BookSide, asOf: int, contact: Option<string>) {
    && row.current == Owing(docs, book, asOf, contact, None, Some(0), |docs|)
    && row.days30 == Owing(docs, book, asOf, contact, Some(1), Some(30), |docs|)
    && row.days60 == Owing(docs, book, asOf, contact, Some(31), Some(60), |docs|)
    && row.days90 == Owing(docs, book, asOf, contact, Some(61), Some(90), |docs|)
    && row.over90 == Owing(docs, book, asOf, contact, Some(91), None, |docs|)
    && row.total == Owing(docs, book, asOf, contact, None, None, |docs|)
  }

  predicate Spans(bucket: Option<Bucket>, low: Option<int>, high: Option<int>) {
    match bucket
    case None => low == None && high == None
    case Some(Current) => low == None && high == Some(0)
    case Some(Days30) => low == Some(1) && high == Some(30)
    case Some(Days60) => low == Some(31) && high == Some(60)
    case Some(Days90) => low == Some(61) && high == Some(90)
    case Some(Over90) => low == Some(91) && high == None
  }

  lemma {:induction false} AgedPrefix(open: seq<OpenDocument>, item: OpenDocument, asOf: int, contact: Option<string>,
                                      bucket: Option<Bucket>, n: nat)
    requires n <= |open|
    ensures Aged(open + [item], asOf, contact, bucket, n) == Aged(open, asOf, contact, bucket, n)
  {
    if n > 0 { AgedPrefix(open, item, asOf, contact, bucket, n - 1); }
  }

  lemma ItemCounts(docs: seq<Document>, book: BookSide, asOf: int, contact: Option<string>, bucket: Option<Bucket>,
                   low: Option<int>, high: Option<int>, i: nat)
    requires i < |docs| && DistinctIds(docs) && Spans(bucket, low, high) && Owed(docs, book, asOf, docs[i]) != 0
    ensures var item := RowOf(docs, book, asOf, docs[i]);
            Flag(Counts(item, asOf, contact, bucket), item.open) ==
            OwingOn(docs, book, asOf, contact, low, high, docs[i])
  {
    OneTells(docs, book, asOf, i);
  }

  lemma AgedSnoc(open: seq<OpenDocument>, item: OpenDocument, asOf: int, contact: Option<string>,
                 bucket: Option<Bucket>)
    ensures Aged(open + [item], asOf, contact, bucket, |open| + 1) ==
            Aged(open, asOf, contact, bucket, |open|) + Flag(Counts(item, asOf, contact, bucket), item.open)
  {
    AgedPrefix(open, item, asOf, contact, bucket, |open|);
  }

  lemma ColumnStep(docs: seq<Document>, book: BookSide, asOf: int, contact: Option<string>, bucket: Option<Bucket>,
                   low: Option<int>, high: Option<int>, i: nat)
    requires i < |docs| && DistinctIds(docs) && Spans(bucket, low, high)
    ensures var was, now := Rows(docs, book, asOf, i), Rows(docs, book, asOf, i + 1);
            Aged(now, asOf, contact, bucket, |now|) ==
            Aged(was, asOf, contact, bucket, |was|) + OwingOn(docs, book, asOf, contact, low, high, docs[i])
  {
    OpenIsOwed(docs, book, asOf, i);
    if Owed(docs, book, asOf, docs[i]) != 0 {
      ItemCounts(docs, book, asOf, contact, bucket, low, high, i);
      AgedSnoc(Rows(docs, book, asOf, i), RowOf(docs, book, asOf, docs[i]), asOf, contact, bucket);
    }
  }

  /** Each column is what the documents of its span of days leave open. */
  lemma ColumnTells(docs: seq<Document>, book: BookSide, asOf: int, contact: Option<string>, bucket: Option<Bucket>,
                    low: Option<int>, high: Option<int>, n: nat)
    requires n <= |docs| && DistinctIds(docs) && Spans(bucket, low, high)
    ensures var open := Rows(docs, book, asOf, n);
            Aged(open, asOf, contact, bucket, |open|) == Owing(docs, book, asOf, contact, low, high, n)
  {
    for i := 0 to n
      invariant var open := Rows(docs, book, asOf, i);
                Aged(open, asOf, contact, bucket, |open|) == Owing(docs, book, asOf, contact, low, high, i)
    {
      ColumnStep(docs, book, asOf, contact, bucket, low, high, i);
    }
  }

  lemma RowTells(row: AgingRow, docs: seq<Document>, book: BookSide, asOf: int, contact: Option<string>)
    requires DistinctIds(docs)
    requires var open := Rows(docs, book, asOf, |docs|); IsAged(row, open, asOf, contact, |open|)
    ensures TellsColumns(row, docs, book, asOf, contact)
  {
    var open := Rows(docs, book, asOf, |docs|);
    ColumnTells(docs, book, asOf, contact, None, None, None, |docs|);
    ColumnTells(docs, book, asOf, contact, Some(Current), None, Some(0), |docs|);
    ColumnTells(docs, book, asOf, contact, Some(Days30), Some(1), Some(30), |docs|);
    ColumnTells(docs, book, asOf, contact, Some(Days60), Some(31), Some(60), |docs|);
    ColumnTells(docs, book, asOf, contact, Some(Days90), Some(61), Some(90), |docs|);
    ColumnTells(docs, book, asOf, contact, Some(Over90), Some(91), None, |docs|);
    assert Column(row, None) == row.total && Column(row, Some(Current)) == row.current;
    assert Column(row, Some(Days30)) == row.days30 && Column(row, Some(Days60)) == row.days60;
    assert Column(row, Some(Days90)) == row.days90 && Column(row, Some(Over90)) == row.over90;
  }

  lemma NotAContact(open: seq<OpenDocument>, asOf: int, c: string)
    requires c !in Contacts(open, |open|)
    ensures Aged(open, asOf, Some(c), None, |open|) == 0
  {
    NewContact(open, asOf, c, None, |open|);
  }

  /** `aging`: a row for every contact that owes something in all, and the row of all of them; every column is what
      the documents of its span of days past due leave open. */
  method Report(docs: seq<Document>, book: BookSide, asOf: int) returns (rows: map<string, AgingRow>, totals: AgingRow)
    requires DistinctIds(docs)
    ensures TellsColumns(totals, docs, book, asOf, None)
    ensures forall c :: c in rows <==> Owing(docs, book, asOf, Some(c), None, None, |docs|) != 0
    ensures forall c :: c in rows ==> TellsColumns(rows[c], docs, book, asOf, Some(c))
  {
    var open := ComputeOpenItems(docs, book, asOf);
    rows, totals := ComputeAging(open, asOf);
    RowTells(totals, docs, book, asOf, None);
    forall c
      ensures c in rows <==> Owing(docs, book, asOf, Some(c), None, None, |docs|) != 0
    {
      ColumnTells(docs, book, asOf, Some(c), None, None, None, |docs|);
      if c !in Contacts(open, |open|) { NotAContact(open, asOf, c); }
    }
    forall c | c in rows
      ensures TellsColumns(rows[c], docs, book, asOf, Some(c))
    {
      RowTells(rows[c], docs, book, asOf, Some(c));
    }
  }
}
