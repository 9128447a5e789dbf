/** What a request makes of a sales order, told line by line from the order and the request. */
module Conversions {
  import opened Wrappers
  import opened Cents
  import opened Documents
  import opened SalesOrders

  // ---- The lines asked for ----

  /** Line `j` is the first with this number. */
  predicate IsFirst(lines: seq<DocLine>, lineNo: int, j: nat) {
    j < |lines| && lines[j].lineNo == lineNo && forall i :: 0 <= i < j ==> lines[i].lineNo != lineNo
  }

  predicate HasLine(order: Document, lineNo: int) {
    exists i :: 0 <= i < |order.lines| && order.lines[i].lineNo == lineNo
  }

  /** The line a number stands for. */
  ghost predicate Stands(order: Document, lineNo: int, line: DocLine) {
    exists j: nat :: IsFirst(order.lines, lineNo, j) && order.lines[j] == line
  }

  /** A line can be billed whole, or in part where it has a quantity, above zero and up to all of it. */
  predicate CanBill(line: DocLine, qty: Option<real>) {
    qty.Some? ==> line.qty.Some? && line.qty.value != 0.0 && 0.0 < qty.value <= line.qty.value
  }

  /** The invoice line: the order's own, renumbered; of a part, its quantity and its share to the cent. */
  predicate Bills(line: DocLine, of: DocLine, qty: Option<real>, number: int) {
    && line.kind == of.kind && line.lineNo == number
    && (qty.None? ==> line.amount == of.amount && line.qty == of.qty)
    && (qty.Some? ==>
          && line.qty == qty && of.qty.Some? && of.qty.value != 0.0
          && line.amount == Round(of.amount as real * qty.value / of.qty.value))
  }

  lemma {:induction false} FoundIsFirst(lines: seq<DocLine>, lineNo: int, n: nat)
    requires n <= |lines|
    ensures var found := FindLine(lines, lineNo, n);
            && (found.Some? ==> exists j: nat :: j < n && IsFirst(lines, lineNo, j) && lines[j] == found.value)
            && (found.None? ==> forall i :: 0 <= i < n ==> lines[i].lineNo != lineNo)
  {
    if n > 0 { FoundIsFirst(lines, lineNo, n - 1); }
  }

  lemma LineFound(order: Document, lineNo: int)
    ensures var found := FindLine(order.lines, lineNo, |order.lines|);
            && (found.Some? <==> HasLine(order, lineNo))
            && forall line :: Stands(order, lineNo, line) <==> found == Some(line)
  {
    FoundIsFirst(order.lines, lineNo, |order.lines|);
    var found := FindLine(order.lines, lineNo, |order.lines|);
    forall line
      ensures Stands(order, lineNo, line) <==> found == Some(line)
    {
      if Stands(order, lineNo, line) {
        var j: nat :| IsFirst(order.lines, lineNo, j) && order.lines[j] == line;
        var i: nat :| IsFirst(order.lines, lineNo, i) && order.lines[i] == found.value;
        assert i == j;
      }
    }
  }

  ghost predicate PicksAre(order: Document, wanted: seq<ConvertLine>, picks: seq<Pick>, n: nat)
    requires n <= |wanted|
  {
    |picks| == n &&
    forall i :: 0 <= i < n ==> Stands(order, wanted[i].lineNo, picks[i].line) && picks[i].qty == wanted[i].qty
  }

  /** The first `n` lines asked for are all there, or the first that is not is named. */
  lemma {:induction false} PickedTells(order: Document, wanted: seq<ConvertLine>, n: nat)
    requires n <= |wanted|
    ensures match Picked(order, wanted, n)
            case Success(picks) =>
              PicksAre(order, wanted, picks, n) && forall i :: 0 <= i < n ==> HasLine(order, wanted[i].lineNo)
            case Failure(e) => exists i :: 0 <= i < n && FirstMissing(order, wanted, i, e)
  {
    if n > 0 {
      PickedTells(order, wanted, n - 1);
      LineFound(order, wanted[n - 1].lineNo);
      if Picked(order, wanted, n - 1).Success? && Picked(order, wanted, n).Failure? {
        assert FirstMissing(order, wanted, n - 1, Picked(order, wanted, n).error);
      }
    }
  }

  /** Line `i` of the request is the first that the order does not have. */
  predicate FirstMissing(order: Document, wanted: seq<ConvertLine>, i: int, e: SalesOrderError) {
    && 0 <= i < |wanted| && !HasLine(order, wanted[i].lineNo) && e == NoSuchLine(order.id, wanted[i].lineNo)
    && forall j :: 0 <= j < i ==> HasLine(order, wanted[j].lineNo)
  }

  /** Line `i` of the picks is the first that cannot be billed so: it has no quantity to take part of, or not that. */
  predicate FirstUnbilled(id: string, picks: seq<Pick>, i: int, e: SalesOrderError) {
    && 0 <= i < |picks| && !CanBill(picks[i].line, picks[i].qty)
    && (forall j :: 0 <= j < i ==> CanBill(picks[j].line, picks[j].qty))
    && var line := picks[i].line;
       e == BadQuantity(id, line.lineNo, if line.qty == None || line.qty == Some(0.0) then NoQuantity
                                         else OutOfRange(line.qty.value))
  }

  predicate LinesBill(lines: seq<DocLine>, picks: seq<Pick>, n: nat)
    requires n <= |picks|
  {
    |lines| == n && forall i :: 0 <= i < n ==> Bills(lines[i], picks[i].line, picks[i].qty, i + 1)
  }

  lemma OneBilled(id: string, pick: Pick, number: int)
    ensures match Billed(id, pick, number)
            case Success(line) => CanBill(pick.line, pick.qty) && Bills(line, pick.line, pick.qty, number)
            case Failure(e) =>
              !CanBill(pick.line, pick.qty) &&
              e == BadQuantity(id, pick.line.lineNo,
                               if pick.line.qty == None || pick.line.qty == Some(0.0) then NoQuantity
                               else OutOfRange(pick.line.qty.value))
  {}

  predicate AllBill(picks: seq<Pick>, n: nat)
    requires n <= |picks|
  {
    forall i :: 0 <= i < n ==> CanBill(picks[i].line, picks[i].qty)
  }

  lemma BilledTells(id: string, picks: seq<Pick>, n: nat)
    requires n <= |picks|
    ensures match BilledLines(id, picks, n)
            case Success(lines) => LinesBill(lines, picks, n) && AllBill(picks, n)
            case Failure(e) => exists i :: 0 <= i < n && FirstUnbilled(id, picks, i, e)
  {
    for m := 0 to n
      invariant match BilledLines(id, picks, m)
                case Success(lines) => LinesBill(lines, picks, m) && AllBill(picks, m)
                case Failure(e) => exists i :: 0 <= i < m && FirstUnbilled(id, picks, i, e)
    {
      OneBilled(id, picks[m], m + 1);
      match BilledLines(id, picks, m) {
        case Failure(e) =>
          assert BilledLines(id, picks, m + 1) == Failure(e);
        case Success(lines) =>
          if BilledLines(id, picks, m + 1).Failure? {
            assert FirstUnbilled(id, picks, m, BilledLines(id, picks, m + 1).error);
          }
      }
    }
  }

  // ---- The invoice ----

  /** An invoice of these lines, to the order's contact, that takes what they are worth from the order and no more. */
  predicate IsInvoice(doc: Document, order: Document, request: ConvertRequest, lines: seq<DocLine>) {
    && doc.kind == DocKind.Invoice && doc.id == request.id && doc.date == request.date && doc.number == request.number
    && doc.contact == order.contact && doc.lines == lines && doc.due == None && doc.tax == None && doc.unapplied == 0
    && !doc.isVoided && doc.memo == (if request.memo != None then request.memo else order.memo)
    && |doc.applications| == 1 && doc.applications[0].target == order.id
    && doc.applications[0].targetKind == DocKind.SalesOrder && doc.applications[0].amount == DocumentTotal(doc)
  }

  /** What comes of picked lines: refused at the first that cannot be billed; else an invoice of all of them, in their
      order, unless there are none or they come to more than is open. */
  ghost predicate BillsPicks(r: Result<Document, SalesOrderError>, order: Document, open: int, request: ConvertRequest,
                       picks: seq<Pick>) {
    if exists i :: 0 <= i < |picks| && !CanBill(picks[i].line, picks[i].qty) then
      r.Failure? && exists j :: 0 <= j < |picks| && FirstUnbilled(order.id, picks, j, r.error)
    else if picks == [] then r == Failure(NoLines)
    else
      match r
      case Success(doc) => DocumentTotal(doc) <= open && IsBillOf(doc, order, request, picks)
      case Failure(e) =>
        exists doc :: IsBillOf(doc, order, request, picks) && DocumentTotal(doc) > open &&
          e == Overinvoiced(order.id, open, DocumentTotal(doc))
  }

  predicate IsBillOf(doc: Document, order: Document, request: ConvertRequest, picks: seq<Pick>) {
    IsInvoice(doc, order, request, doc.lines) && LinesBill(doc.lines, picks, |picks|)
  }

  lemma BuiltBills(order: Document, request: ConvertRequest, lines: seq<DocLine>)
    ensures IsInvoice(InvoiceWith(order, request, lines), order, request, lines)
    ensures DocumentTotal(InvoiceWith(order, request, lines)) == LinesWorth(lines, |lines|)
  {}

  lemma PicksBill(order: Document, taken: int, request: ConvertRequest, picks: seq<Pick>)
    requires Choice(order, request, taken) == Success(picks)
    ensures BillsPicks(Conversion(order, taken, request), order, Subtotal(order) - taken, request, picks)
  {
    BilledTells(order.id, picks, |picks|);
    match BilledLines(order.id, picks, |picks|)
    case Failure(e) =>
      var i :| 0 <= i < |picks| && FirstUnbilled(order.id, picks, i, e);
      assert !CanBill(picks[i].line, picks[i].qty);
    case Success(lines) =>
      BuiltBills(order, request, lines);
      var doc := InvoiceWith(order, request, lines);
      assert IsBillOf(doc, order, request, picks);
  }

  /** All of an order's lines, each whole. */
  predicate IsWhole(order: Document, picks: seq<Pick>) {
    |picks| == |order.lines| &&
    forall i :: 0 <= i < |picks| ==> picks[i].line == order.lines[i] && picks[i].qty == None
  }

  /** A request for no lines in particular bills all of them, whole, from an order nothing was taken of; any other bills
      the lines it names, in its order, and names the first that the order does not have. */
  lemma ConversionTells(order: Document, taken: int, request: ConvertRequest)
    ensures var r, open := Conversion(order, taken, request), Subtotal(order) - taken;
            match request.lines
            case None =>
              if taken != 0 then r == Failure(PartlyInvoiced(order.id))
              else exists picks :: IsWhole(order, picks) && BillsPicks(r, order, open, request, picks)
            case Some(wanted) =>
              if exists i :: 0 <= i < |wanted| && !HasLine(order, wanted[i].lineNo) then
                r.Failure? && exists i :: 0 <= i < |wanted| && FirstMissing(order, wanted, i, r.error)
              else
                exists picks :: PicksAre(order, wanted, picks, |wanted|) && BillsPicks(r, order, open, request, picks)
  {
    var r := Conversion(order, taken, request);
    match request.lines
    case None =>
      if taken == 0 {
        PicksBill(order, taken, request, WholeLines(order.lines));
        assert IsWhole(order, WholeLines(order.lines));
      }
    case Some(wanted) =>
      PickedTells(order, wanted, |wanted|);
      match Picked(order, wanted, |wanted|) {
        case Success(picks) => PicksBill(order, taken, request, picks);
        case Failure(e) =>
          var i :| 0 <= i < |wanted| && FirstMissing(order, wanted, i, e);
          assert !HasLine(order, wanted[i].lineNo) && r == Failure(e);
      }
  }

  // ---- The listing ----

  /** A live invoice, dated by then, with a link to the order. */
  predicate TookFrom(doc: Document, id: string, asOf: Option<int>) {
    && doc.kind == DocKind.Invoice && !doc.isVoided && (asOf.None? || doc.date <= asOf.value)
    && exists i :: 0 <= i < |doc.applications| && doc.applications[i].target == id &&
         doc.applications[i].targetKind == DocKind.SalesOrder
  }

  lemma {:induction false} InvoicesTell(docs: seq<Document>, id: string, asOf: Option<int>, n: nat)
    requires n <= |docs|
    ensures forall invoice :: invoice in InvoicesOf(docs, id, asOf, n) <==>
              exists i :: 0 <= i < n && docs[i].id == invoice && TookFrom(docs[i], id, asOf)
  {
    if n > 0 { InvoicesTell(docs, id, asOf, n - 1); }
  }

  /** A row of the listing is a live order dated by then, with what it is worth, what was taken and what is left, never
      less than nothing, and the invoices that took it. */
  ghost predicate TellsOrder(row: OpenSalesOrder, docs: seq<Document>, names: map<string, string>, asOf: Option<int>,
                       doc: Document) {
    && doc.kind == DocKind.SalesOrder && !doc.isVoided && (asOf.None? || doc.date <= asOf.value)
    && row.id == doc.id && row.number == doc.number && row.date == doc.date && row.memo == doc.memo
    && row.contact == (if doc.contact == None then "" else doc.contact.value.id)
    && row.name == (if row.contact in names then names[row.contact] else row.contact)
    && row.subtotal == Subtotal(doc) && row.invoiced == TakenFrom(docs, doc.id, asOf, |docs|)
    && row.open >= 0 && row.open >= row.subtotal - row.invoiced
    && (row.open == 0 || row.open == row.subtotal - row.invoiced)
    && forall invoice :: invoice in row.invoices <==>
         exists i :: 0 <= i < |docs| && docs[i].id == invoice && TookFrom(docs[i], doc.id, asOf)
  }

  /** Row `k` is one of the first `n` documents, with something left where only that is asked for. */
  ghost predicate IsRow(row: OpenSalesOrder, docs: seq<Document>, names: map<string, string>, asOf: Option<int>,
                        openOnly: bool, n: nat)
    requires n <= |docs|
  {
    (openOnly ==> row.open > 0) && exists i :: 0 <= i < n && TellsOrder(row, docs, names, asOf, docs[i])
  }

  lemma RowTells(docs: seq<Document>, names: map<string, string>, asOf: Option<int>, openOnly: bool, i: nat)
    requires i < |docs| && IsListed(docs, asOf, openOnly, docs[i])
    ensures IsRow(RowFor(docs, names, asOf, docs[i]), docs, names, asOf, openOnly, i + 1)
  {
    InvoicesTell(docs, docs[i].id, asOf, |docs|);
    assert TellsOrder(RowFor(docs, names, asOf, docs[i]), docs, names, asOf, docs[i]);
  }

  /** Every row of the listing is so, and of the open listing has something left. */
  lemma {:induction false} ListingTells(docs: seq<Document>, names: map<string, string>, asOf: Option<int>,
                                        openOnly: bool, n: nat)
    requires n <= |docs|
    ensures forall row :: row in OrderRows(docs, names, asOf, openOnly, n) ==>
              IsRow(row, docs, names, asOf, openOnly, n)
  {
    if n > 0 {
      ListingTells(docs, names, asOf, openOnly, n - 1);
      if IsListed(docs, asOf, openOnly, docs[n - 1]) { RowTells(docs, names, asOf, openOnly, n - 1); }
    }
  }
}
