/** Sales orders: what linked invoices took, and building the invoice that takes more. */
module SalesOrders {
  import opened Wrappers
  import opened Cents
  import opened Documents

  datatype ConvertLine = ConvertLine(lineNo: int, qty: Option<real>)

  /** `lines` is `None` to bill every line of the order. */
  datatype ConvertRequest = ConvertRequest(
    id: string, date: int, lines: Option<seq<ConvertLine>>, number: Option<string>, memo: Option<string>)

  datatype QuantityFault = NoQuantity | OutOfRange(ordered: real)

  datatype SalesOrderError =
    | UnknownDocument(id: string) | NotASalesOrder(id: string,
        kind: DocKind) | Voided(id: string) | NothingOpen(id: string)
    | PartlyInvoiced(id: string) | NoSuchLine(id: string, lineNo: int)
    | BadQuantity(id: string, lineNo: int, fault: QuantityFault)
    | Overinvoiced(id: string, open: int, asked: int) | NoLines

  datatype Taken = Taken(amount: int, invoices: seq<string>)

  datatype OpenSalesOrder = OpenSalesOrder(
    id: string, number: Option<string>, contact: string, name: string, date: int,
    subtotal: int, invoiced: int, open: int, invoices: seq<string>, memo: Option<string>)

  // ---- What an order is worth and what was taken from it ----

  /** Lines less discounts, before tax. */
  function Subtotal(doc: Document): int { LinesWorth(doc.lines, |doc.lines|) }

  predicate IsLink(app: Application, id: string) { app.targetKind.SalesOrder? && app.target == id }

  /** What the first `n` applications took from order `id`. */
  function LinkedTo(apps: seq<Application>, id: string, n: nat): int
    requires n <= |apps|
  {
    if n == 0 then 0 else LinkedTo(apps, id, n - 1) + (if IsLink(apps[n - 1], id) then apps[n - 1].amount else 0)
  }

  predicate LinksAmong(apps: seq<Application>, id: string, n: nat)
    requires n <= |apps|
  {
    exists i :: 0 <= i < n && IsLink(apps[i], id)
  }

  function Took(doc: Document, id: string): int { LinkedTo(doc.applications, id, |doc.applications|) }

  predicate Names(doc: Document, id: string) { LinksAmong(doc.applications, id, |doc.applications|) }

  predicate Within(doc: Document, asOf: Option<int>) { asOf.None? || doc.date <= asOf.value }

  predicate IsLiveInvoice(doc: Document, asOf: Option<int>) { doc.kind.Invoice? && !doc.isVoided && Within(doc, asOf) }

  /** What live invoices among the first `n` documents took from order `id`. */
  function TakenFrom(docs: seq<Document>, id: string, asOf: Option<int>, n: nat): int
    requires n <= |docs|
  {
    if n == 0 then 0
    else TakenFrom(docs, id, asOf, n - 1) + (if IsLiveInvoice(docs[n - 1], asOf) then Took(docs[n - 1], id) else 0)
  }

  function Added(ids: seq<string>, id: string): seq<string> { if id in ids then ids else ids + [id] }

  /** The invoices among the first `n` documents that took from order `id`, each once. */
  function InvoicesOf(docs: seq<Document>, id: string, asOf: Option<int>, n: nat): seq<string>
    requires n <= |docs|
  {
    if n == 0 then []
    else if IsLiveInvoice(docs[n - 1], asOf) && Names(docs[n - 1], id) then
      Added(InvoicesOf(docs, id, asOf, n - 1), docs[n - 1].id)
    else InvoicesOf(docs, id, asOf, n - 1)
  }

  function AllTaken(docs: seq<Document>, id: string): int { TakenFrom(docs, id, None, |docs|) }

  /** `subtotal`. */
  method ComputeSubtotal(doc: Document) returns (total: int)
    ensures total == Subtotal(doc)
  {
    total := 0;
    for i := 0 to |doc.lines|
      invariant total == LinesWorth(doc.lines, i)
    {
      var line := doc.lines[i];
      if line.kind.Item? || line.kind.Shipping? || line.kind.AccountLine? {
        total := total + line.amount;
      } else if line.kind.Discount? {
        total := total - line.amount;
      }
    }
  }

  function AmountIn(out: map<string, Taken>, id: string): int { if id in out then out[id].amount else 0 }

  function IdsIn(out: map<string, Taken>, id: string): seq<string> { if id in out then out[id].invoices else [] }

  /** `out` holds, order by order, what `was` held and the first `n` links of `invoice`. */
  ghost predicate HasLinks(was: map<string, Taken>, out: map<string, Taken>, invoice: Document, n: nat)
    requires n <= |invoice.applications|
  {
    forall id {:trigger AmountIn(out, id)} {:trigger IdsIn(out, id)} ::
      && AmountIn(out, id) == AmountIn(was, id) + LinkedTo(invoice.applications, id, n)
      && IdsIn(out, id) ==
          (if LinksAmong(invoice.applications, id, n) then Added(IdsIn(was, id), invoice.id) else IdsIn(was, id))
  }

  lemma LinksNext(apps: seq<Application>, id: string, n: nat)
    requires n < |apps|
    ensures LinksAmong(apps, id, n + 1) <==> LinksAmong(apps, id, n) || IsLink(apps[n], id)
  {}

  method AddLinks(was: map<string, Taken>, invoice: Document) returns (out: map<string, Taken>)
    ensures HasLinks(was, out, invoice, |invoice.applications|)
  {
    out := was;
    forall id
      ensures LinkedTo(invoice.applications, id, 0) == 0 && !LinksAmong(invoice.applications, id, 0)
    {}
    for i := 0 to |invoice.applications|
      invariant HasLinks(was, out, invoice, i)
    {
      var link := invoice.applications[i];
      ghost var before := out;
      if link.targetKind.SalesOrder? {
        var entry := if link.target in out then out[link.target] else Taken(0, []);
        entry := Taken(entry.amount + link.amount, Added(entry.invoices, invoice.id));
        out := out[link.target := entry];
      }
      forall id
        ensures AmountIn(out, id) == AmountIn(was, id) + LinkedTo(invoice.applications, id, i + 1)
        ensures IdsIn(out, id) ==
          (if LinksAmong(invoice.applications, id, i + 1) then Added(IdsIn(was, id), invoice.id) else IdsIn(was, id))
      {
        LinksNext(invoice.applications, id, i);
        assert AmountIn(before, id) == AmountIn(was, id) + LinkedTo(invoice.applications, id, i);
      }
    }
  }

  /** `out` holds what the first `n` documents took from every order. */
  ghost predicate IsTally(out: map<string, Taken>, docs: seq<Document>, asOf: Option<int>, n: nat)
    requires n <= |docs|
  {
    forall id {:trigger AmountIn(out, id)} {:trigger IdsIn(out, id)} ::
      && AmountIn(out, id) == TakenFrom(docs, id, asOf, n)
      && IdsIn(out, id) == InvoicesOf(docs, id, asOf, n)
  }

  lemma TallyNext(out: map<string, Taken>, out': map<string, Taken>, docs: seq<Document>, asOf: Option<int>, n: nat)
    requires n < |docs| && IsTally(out, docs, asOf, n)
    requires if IsLiveInvoice(docs[n], asOf) then HasLinks(out, out', docs[n], |docs[n].applications|) else out' == out
    ensures IsTally(out', docs, asOf, n + 1)
  {
    forall id
      ensures AmountIn(out', id) == TakenFrom(docs, id, asOf, n + 1)
      ensures IdsIn(out', id) == InvoicesOf(docs, id, asOf, n + 1)
    {
      assert AmountIn(out, id) == TakenFrom(docs, id, asOf, n);
    }
  }

  /** `invoiced_by_order`: the amount taken from every order, and the invoices that took it. */
  method InvoicedByOrder(docs: seq<Document>, asOf: Option<int>) returns (out: map<string, Taken>)
    ensures IsTally(out, docs, asOf, |docs|)
  {
    out := map[];
    for i := 0 to |docs|
      invariant IsTally(out, docs, asOf, i)
    {
      ghost var before := out;
      if docs[i].kind.Invoice? && !docs[i].isVoided && Within(docs[i], asOf) {
        out := AddLinks(out, docs[i]);
      }
      TallyNext(before, out, docs, asOf, i);
    }
  }

  // ---- The listing ----

  function NonNegative(x: int): int { if x < 0 then 0 else x }

  function ContactOf(doc: Document): string { match doc.contact case Some(c) => c.id case None => "" }

  function NameOf(names: map<string, string>, id: string): string { if id in names then names[id] else id }

  predicate IsListed(docs: seq<Document>, asOf: Option<int>, openOnly: bool, doc: Document) {
    && doc.kind.SalesOrder? && !doc.isVoided && Within(doc, asOf)
    && (openOnly ==> Subtotal(doc) > TakenFrom(docs, doc.id, asOf, |docs|))
  }

  function RowFor(docs: seq<Document>, names: map<string, string>, asOf: Option<int>, doc: Document): OpenSalesOrder {
    var taken := TakenFrom(docs, doc.id, asOf, |docs|);
    OpenSalesOrder(doc.id, doc.number, ContactOf(doc), NameOf(names, ContactOf(doc)), doc.date, Subtotal(doc), taken,
                   NonNegative(Subtotal(doc) - taken), InvoicesOf(docs, doc.id, asOf, |docs|), doc.memo)
  }

  function OrderRows(docs: seq<Document>, names: map<string, string>, asOf: Option<int>, openOnly: bool,
                     n: nat): seq<OpenSalesOrder>
    requires n <= |docs|
  {
    if n == 0 then []
    else if IsListed(docs, asOf, openOnly, docs[n - 1]) then
      OrderRows(docs, names, asOf, openOnly, n - 1) + [RowFor(docs, names, asOf, docs[n - 1])]
    else OrderRows(docs, names, asOf, openOnly, n - 1)
  }

  /** `sales_orders`. */
  method ListOrders(docs: seq<Document>, names: map<string, string>, asOf: Option<int>, openOnly: bool)
      returns (rows: seq<OpenSalesOrder>)
    ensures rows == OrderRows(docs, names, asOf, openOnly, |docs|)
  {
    var invoiced := InvoicedByOrder(docs, asOf);
    rows := [];
    for i := 0 to |docs|
      invariant rows == OrderRows(docs, names, asOf, openOnly, i)
    {
      var doc := docs[i];
      if doc.kind.SalesOrder? && !doc.isVoided && Within(doc, asOf) {
        var total := ComputeSubtotal(doc);
        var taken := if doc.id in invoiced then invoiced[doc.id] else Taken(0, []);
        assert taken.amount == AmountIn(invoiced, doc.id) && taken.invoices == IdsIn(invoiced, doc.id);
        if !openOnly || total - taken.amount > 0 {
          var contact := ContactOf(doc);
          rows := rows + [OpenSalesOrder(doc.id, doc.number, contact, NameOf(names, contact), doc.date, total,
              taken.amount,
                                         NonNegative(total - taken.amount), taken.invoices, doc.memo)];
        }
      }
    }
  }

  // ---- Building the invoice ----

  function FindDocument(docs: seq<Document>, id: string, n: nat): Option<Document>
    requires n <= |docs|
  {
    if n == 0 then None
    else
      var earlier := FindDocument(docs, id, n - 1);
      if earlier.Some? then earlier else if docs[n - 1].id == id then Some(docs[n - 1]) else None
  }

  function FindLine(lines: seq<DocLine>, lineNo: int, n: nat): Option<DocLine>
    requires n <= |lines|
  {
    if n == 0 then None
    else
      var earlier := FindLine(lines, lineNo, n - 1);
      if earlier.Some? then earlier else if lines[n - 1].lineNo == lineNo then Some(lines[n - 1]) else None
  }

  datatype Pick = Pick(line: DocLine, qty: Option<real>)

  /** The first `n` lines asked for, or the first one the order does not have. */
  function Picked(order: Document, wanted: seq<ConvertLine>, n: nat): Result<seq<Pick>, SalesOrderError>
    requires n <= |wanted|
  {
    if n == 0 then Success([])
    else
      match Picked(order, wanted, n - 1)
      case Failure(e) => Failure(e)
      case Success(picks) =>
        match FindLine(order.lines, wanted[n - 1].lineNo, |order.lines|)
        case None => Failure(NoSuchLine(order.id, wanted[n - 1].lineNo))
        case Some(line) => Success(picks + [Pick(line, wanted[n - 1].qty)])
  }

  /** What part `qty` of `ordered` bills of a line worth `amount`, to the nearest cent. */
  function PartAmount(amount: int, qty: real, ordered: real): int
    requires ordered != 0.0
  {
    Round(amount as real * qty / ordered)
  }

  function Fault(line: DocLine, qty: real): Option<QuantityFault> {
    if line.qty.None? || line.qty.value == 0.0 then Some(NoQuantity)
    else if qty <= 0.0 || qty > line.qty.value then Some(OutOfRange(line.qty.value))
    else None
  }

  /** The invoice line for one picked line of order `id`. */
  function Billed(id: string, pick: Pick, number: int): Result<DocLine, SalesOrderError> {
    match pick.qty
    case None => Success(pick.line.(lineNo := number))
    case Some(qty) =>
      match Fault(pick.line, qty)
      case Some(fault) => Failure(BadQuantity(id, pick.line.lineNo, fault))
      case None =>
        Success(pick.line.(amount := PartAmount(pick.line.amount, qty, pick.line.qty.value), qty := Some(qty),
            lineNo := number))
  }

  function BilledLines(id: string, picks: seq<Pick>, n: nat): Result<seq<DocLine>, SalesOrderError>
    requires n <= |picks|
  {
    if n == 0 then Success([])
    else
      match BilledLines(id, picks, n - 1)
      case Failure(e) => Failure(e)
      case Success(lines) =>
        match Billed(id, picks[n - 1], n)
        case Failure(e) => Failure(e)
        case Success(line) => Success(lines + [line])
  }

  function WholeLines(lines: seq<DocLine>): seq<Pick> {
    seq(|lines|, i requires 0 <= i < |lines| => Pick(lines[i], None))
  }

  /** The lines a request picks of an order that `taken` was already taken from. */
  function Choice(order: Document, request: ConvertRequest, taken: int): Result<seq<Pick>, SalesOrderError> {
    match request.lines
    case None => if taken != 0 then Failure(PartlyInvoiced(order.id)) else Success(WholeLines(order.lines))
    case Some(wanted) => Picked(order, wanted, |wanted|)
  }

  function InvoiceWith(order: Document, request: ConvertRequest, lines: seq<DocLine>): Document {
    Document(request.id, Invoice, request.number, request.date, None, order.contact, lines, None,
             [Application(order.id, SalesOrder, LinesWorth(lines, |lines|))], 0, false,
             if request.memo.Some? then request.memo else order.memo)
  }

  /** Why a document cannot be converted whatever is asked of it. */
  function Closed(docs: seq<Document>, id: string): Option<SalesOrderError> {
    match FindDocument(docs, id, |docs|)
    case None => Some(UnknownDocument(id))
    case Some(order) =>
      if !order.kind.SalesOrder? then Some(NotASalesOrder(id, order.kind))
      else if order.isVoided then Some(Voided(id))
      else if Subtotal(order) <= AllTaken(docs, id) then Some(NothingOpen(id))
      else None
  }

  /** The invoice an open order gives for a request, or why it gives none. */
  function Conversion(order: Document, taken: int, request: ConvertRequest): Result<Document, SalesOrderError> {
    match Choice(order, request, taken)
    case Failure(e) => Failure(e)
    case Success(picks) =>
      match BilledLines(order.id, picks, |picks|)
      case Failure(e) => Failure(e)
      case Success(lines) =>
        var asked := LinesWorth(lines, |lines|);
        if lines == [] then Failure(NoLines)
        else if asked > Subtotal(order) - taken then Failure(Overinvoiced(order.id, Subtotal(order) - taken, asked))
        else Success(InvoiceWith(order, request, lines))
  }

  function InvoiceFor(docs: seq<Document>, id: string, request: ConvertRequest): Result<Document, SalesOrderError> {
    match Closed(docs, id)
    case Some(e) => Failure(e)
    case None => Conversion(FindDocument(docs, id, |docs|).value, AllTaken(docs, id), request)
  }

  lemma {:induction false} FoundHasId(docs: seq<Document>, id: string, n: nat)
    requires n <= |docs|
    ensures var found := FindDocument(docs, id, n);
            found.Some? ==> found.value.id == id && found.value in docs[..n]
    ensures FindDocument(docs, id, n).None? ==> forall i :: 0 <= i < n ==> docs[i].id != id
  {
    if n > 0 {
      FoundHasId(docs, id, n - 1);
      assert docs[..n] == docs[..n - 1] + [docs[n - 1]];
    }
  }

  method PickLines(order: Document, wanted: seq<ConvertLine>) returns (r: Result<seq<Pick>, SalesOrderError>)
    ensures r == Picked(order, wanted, |wanted|)
  {
    var picks := [];
    for i := 0 to |wanted|
      invariant Picked(order, wanted, i) == Success(picks)
    {
      var line: Option<DocLine> := None;
      for j := 0 to |order.lines|
        invariant line == FindLine(order.lines, wanted[i].lineNo, j)
      {
        if line.None? && order.lines[j].lineNo == wanted[i].lineNo { line := Some(order.lines[j]); }
      }
      if line.None? {
        PickedFails(order, wanted, i + 1, NoSuchLine(order.id, wanted[i].lineNo));
        return Failure(NoSuchLine(order.id, wanted[i].lineNo));
      }
      picks := picks + [Pick(line.value, wanted[i].qty)];
    }
    return Success(picks);
  }

  lemma {:induction false} PickedFails(order: Document, wanted: seq<ConvertLine>, n: nat, e: SalesOrderError)
    requires n <= |wanted| && Picked(order, wanted, n) == Failure(e)
    ensures Picked(order, wanted, |wanted|) == Failure(e)
    decreases |wanted| - n
  {
    if n < |wanted| { PickedFails(order, wanted, n + 1, e); }
  }

  lemma {:induction false} BillingFails(id: string, picks: seq<Pick>, n: nat, e: SalesOrderError)
    requires n <= |picks| && BilledLines(id, picks, n) == Failure(e)
    ensures BilledLines(id, picks, |picks|) == Failure(e)
    decreases |picks| - n
  {
    if n < |picks| { BillingFails(id, picks, n + 1, e); }
  }

  method BillLines(id: string, picks: seq<Pick>) returns (r: Result<seq<DocLine>, SalesOrderError>)
    ensures r == BilledLines(id, picks, |picks|)
  {
    var lines := [];
    for i := 0 to |picks|
      invariant BilledLines(id, picks, i) == Success(lines)
    {
      var line := picks[i].line;
      if picks[i].qty.Some? {
        var qty := picks[i].qty.value;
        var fault := Fault(line, qty);
        if fault.Some? {
          BillingFails(id, picks, i + 1, BadQuantity(id, line.lineNo, fault.value));
          return Failure(BadQuantity(id, line.lineNo, fault.value));
        }
        line := line.(amount := PartAmount(line.amount, qty, line.qty.value), qty := Some(qty));
      }
      line := line.(lineNo := i + 1);
      lines := lines + [line];
    }
    return Success(lines);
  }

  /** The part of `invoice_from_sales_order` that follows the order's own checks. */
  method Convert(order: Document, taken: int, request: ConvertRequest) returns (r: Result<Document, SalesOrderError>)
    ensures r == Conversion(order, taken, request)
  {
    var picks: seq<Pick>;
    if request.lines.None? {
      if taken != 0 { return Failure(PartlyInvoiced(order.id)); }
      picks := WholeLines(order.lines);
    } else {
      var chosen := PickLines(order, request.lines.value);
      if chosen.Failure? { return Failure(chosen.error); }
      picks := chosen.value;
    }
    var billed := BillLines(order.id, picks);
    if billed.Failure? { return Failure(billed.error); }
    if billed.value == [] { return Failure(NoLines); }
    var invoice := Document(request.id, Invoice, request.number, request.date, None, order.contact, billed.value, None,
        [],
                            0, false, if request.memo.Some? then request.memo else order.memo);
    var asked := ComputeSubtotal(invoice);
    var total := ComputeSubtotal(order);
    if asked > total - taken { return Failure(Overinvoiced(order.id, total - taken, asked)); }
    return Success(invoice.(applications := [Application(order.id, SalesOrder, asked)]));
  }

  // ---- Runs ----

  datatype Step =
    | ConvertOrder(order: string, request: ConvertRequest, number: Option<string>, due: Option<int>, tax: Option<int>)
    | VoidDocument(id: string, reason: string)
    | SaveOther(doc: Document)

  /** The newest version of every document, oldest first. */
  class OrderBook {
    var docs: seq<Document>

    constructor ()
      ensures docs == []
    {
      docs := [];
    }

    method Find(id: string) returns (found: Option<Document>)
      ensures found == FindDocument(docs, id, |docs|)
    {
      found := None;
      for i := 0 to |docs|
        invariant found == FindDocument(docs, id, i)
      {
        if found.None? && docs[i].id == id { found := Some(docs[i]); }
      }
    }

    /** `invoice_from_sales_order`. */
    method InvoiceFromSalesOrder(id: string, request: ConvertRequest) returns (r: Result<Document, SalesOrderError>)
      ensures r == InvoiceFor(docs, id, request)
    {
      var order := Find(id);
      if order.None? { return Failure(UnknownDocument(id)); }
      if !order.value.kind.SalesOrder? { return Failure(NotASalesOrder(id, order.value.kind)); }
      if order.value.isVoided { return Failure(Voided(id)); }
      var invoiced := InvoicedByOrder(docs, None);
      var taken := if id in invoiced then invoiced[id].amount else 0;
      assert taken == AmountIn(invoiced, id);
      var total := ComputeSubtotal(order.value);
      if total - taken <= 0 { return Failure(NothingOpen(id)); }
      r := Convert(order.value, taken, request);
    }

    /** One step of a run: a conversion saved as its caller saves it, a void, or any other document saved. */
    method Perform(step: Step)
      modifies this
      ensures docs == Next(old(docs), step)
    {
      match step {
        case ConvertOrder(id, request, number, due, tax) =>
          var built := InvoiceFromSalesOrder(id, request);
          if built.Success? { docs := docs + [Prepared(built.value, number, due, tax)]; }
        case VoidDocument(id, reason) =>
          for i := 0 to |docs|
            invariant |docs| == |old(docs)| && docs == VoidedAmong(old(docs), id, reason, i) + old(docs)[i..]
          {
            if docs[i].id == id && !docs[i].isVoided {
              docs := docs[i := VoidedCopy(docs[i], reason)];
            }
          }
        case SaveOther(doc) => docs := docs + [doc];
      }
    }

    method Run(steps: seq<Step>)
      modifies this
      ensures docs == After(old(docs), steps, |steps|)
    {
      for i := 0 to |steps|
        invariant docs == After(old(docs), steps, i)
      {
        Perform(steps[i]);
      }
    }
  }

  /** What preparing an invoice for saving may fill in. */
  function Prepared(invoice: Document, number: Option<string>, due: Option<int>, tax: Option<int>): Document {
    invoice.(number := number, due := due, tax := tax)
  }

  function VoidedAs(doc: Document, id: string, reason: string): Document {
    if doc.id == id && !doc.isVoided then VoidedCopy(doc, reason) else doc
  }

  function VoidedAmong(docs: seq<Document>, id: string, reason: string, n: nat): (r: seq<Document>)
    requires n <= |docs|
    ensures |r| == n
  {
    seq(n, i requires 0 <= i < n => VoidedAs(docs[i], id, reason))
  }

  /** The documents after one step. */
  function Next(docs: seq<Document>, step: Step): seq<Document> {
    match step
    case ConvertOrder(id, request, number, due, tax) =>
      (match InvoiceFor(docs, id, request)
       case Success(invoice) => docs + [Prepared(invoice, number, due, tax)]
       case Failure(_) => docs)
    case VoidDocument(id, reason) => VoidedAmong(docs, id, reason, |docs|)
    case SaveOther(doc) => docs + [doc]
  }

  function After(docs: seq<Document>, steps: seq<Step>, n: nat): seq<Document>
    requires n <= |steps|
  {
    if n == 0 then docs else Next(After(docs, steps, n - 1), steps[n - 1])
  }

  predicate Distinct(docs: seq<Document>) { forall i, j :: 0 <= i < j < |docs| ==> docs[i].id != docs[j].id }

  predicate IsNew(docs: seq<Document>, id: string) { forall i :: 0 <= i < |docs| ==> docs[i].id != id }

  // ---- How one step changes what was taken ----

  /** An invoice made from an order links to it alone, for its own subtotal, within what was open. */
  lemma {:induction false} ConversionTakes(order: Document, taken: int, request: ConvertRequest, id: string)
    requires Conversion(order, taken, request).Success?
    ensures var invoice := Conversion(order, taken, request).value;
            && invoice.kind.Invoice? && !invoice.isVoided && invoice.id == request.id && invoice.lines != []
            && Took(invoice, id) == (if id == order.id then Subtotal(invoice) else 0)
            && Subtotal(invoice) <= Subtotal(order) - taken
  {
    var invoice := Conversion(order, taken, request).value;
    assert Took(invoice, id) ==
        LinkedTo(invoice.applications, id, 0) + (if order.id == id then Subtotal(invoice) else 0);
  }

  lemma {:induction false} TakenAgrees(docs: seq<Document>, docs': seq<Document>, id: string, n: nat)
    requires n <= |docs| && n <= |docs'|
    requires forall i :: 0 <= i < n ==> docs[i] == docs'[i]
    ensures TakenFrom(docs, id, None, n) == TakenFrom(docs', id, None, n)
  {
    if n > 0 { TakenAgrees(docs, docs', id, n - 1); }
  }

  /** Saving a live invoice takes what it links. */
  lemma {:induction false} SavingTakes(docs: seq<Document>, doc: Document, id: string)
    ensures AllTaken(docs + [doc], id) == AllTaken(docs, id) + (if IsLiveInvoice(doc, None) then Took(doc, id) else 0)
  {
    TakenAgrees(docs, docs + [doc], id, |docs|);
  }

  /** What voiding document `gone` gives back to order `id`. */
  function GivenBack(docs: seq<Document>, gone: string, id: string, n: nat): int
    requires n <= |docs|
  {
    if n == 0 then 0
    else
      GivenBack(docs, gone, id, n - 1) +
      (if docs[n - 1].id == gone && IsLiveInvoice(docs[n - 1], None) then Took(docs[n - 1], id) else 0)
  }

  lemma {:induction false} VoidingGivesBack(docs: seq<Document>, gone: string, reason: string, id: string, n: nat)
    requires n <= |docs|
    ensures TakenFrom(VoidedAmong(docs, gone, reason, |docs|), id, None, n) ==
        TakenFrom(docs, id, None, n) - GivenBack(docs, gone, id, n)
  {
    if n > 0 { VoidingGivesBack(docs, gone, reason, id, n - 1); }
  }

  lemma {:induction false} GivesBackAtLeast(docs: seq<Document>, gone: string, id: string, n: nat)
    requires n <= |docs|
    requires forall i :: 0 <= i < |docs| && docs[i].id == gone && IsLiveInvoice(docs[i], None) ==>
        Took(docs[i], id) >= 0
    ensures GivenBack(docs, gone, id, n) >= 0
  {
    if n > 0 { GivesBackAtLeast(docs, gone, id, n - 1); }
  }

  lemma {:induction false} FindAppended(docs: seq<Document>, doc: Document, id: string, n: nat)
    requires n <= |docs|
    ensures FindDocument(docs + [doc], id, n) == FindDocument(docs, id, n)
  {
    if n > 0 { FindAppended(docs, doc, id, n - 1); }
  }

  lemma {:induction false} FindVoided(docs: seq<Document>, gone: string, reason: string, id: string, n: nat)
    requires n <= |docs|
    ensures FindDocument(VoidedAmong(docs, gone, reason, |docs|), id, n) ==
            (match FindDocument(docs, id, n) case None => None case Some(doc) => Some(VoidedAs(doc, gone, reason)))
  {
    if n > 0 { FindVoided(docs, gone, reason, id, n - 1); }
  }

  // ---- The cap ----

  /** `docs` has the order with these lines. */
  predicate HasOrder(docs: seq<Document>, id: string, lines: seq<DocLine>) {
    var found := FindDocument(docs, id, |docs|);
    found.Some? && found.value.kind.SalesOrder? && found.value.lines == lines
  }

  predicate Capped(docs: seq<Document>, id: string, lines: seq<DocLine>) {
    AllTaken(docs, id) <= LinesWorth(lines, |lines|)
  }

  /** A step a run may take: ids are fresh, and no void gives back less than nothing. */
  predicate Allowed(docs: seq<Document>, step: Step, id: string) {
    match step
    case ConvertOrder(_, request, _, _, _) => IsNew(docs, request.id)
    case VoidDocument(gone, _) =>
      forall i :: 0 <= i < |docs| && docs[i].id == gone && IsLiveInvoice(docs[i], None) ==> Took(docs[i], id) >= 0
    case SaveOther(doc) => IsNew(docs, doc.id) && (IsLiveInvoice(doc, None) ==> Took(doc, id) <= 0)
  }

  lemma {:induction false} ConvertKeepsCap(docs: seq<Document>, step: Step, id: string, lines: seq<DocLine>)
    requires step.ConvertOrder? && HasOrder(docs, id, lines) && Capped(docs, id, lines)
    ensures HasOrder(Next(docs, step), id, lines) && Capped(Next(docs, step), id, lines)
  {
    var built := InvoiceFor(docs, step.order, step.request);
    if built.Success? {
      var order := FindDocument(docs, step.order, |docs|).value;
      FoundHasId(docs, step.order, |docs|);
      ConversionTakes(order, AllTaken(docs, step.order), step.request, id);
      var doc := Prepared(built.value, step.number, step.due, step.tax);
      FindAppended(docs, doc, id, |docs|);
      SavingTakes(docs, doc, id);
    }
  }

  lemma {:induction false} StepKeepsCap(docs: seq<Document>, step: Step, id: string, lines: seq<DocLine>)
    requires Allowed(docs, step, id) && HasOrder(docs, id, lines) && Capped(docs, id, lines)
    ensures HasOrder(Next(docs, step), id, lines) && Capped(Next(docs, step), id, lines)
  {
    match step {
      case ConvertOrder(_, _, _, _, _) => ConvertKeepsCap(docs, step, id, lines);
      case VoidDocument(gone, reason) =>
        FindVoided(docs, gone, reason, id, |docs|);
        VoidingGivesBack(docs, gone, reason, id, |docs|);
        GivesBackAtLeast(docs, gone, id, |docs|);
      case SaveOther(doc) =>
        FindAppended(docs, doc, id, |docs|);
        SavingTakes(docs, doc, id);
    }
  }

  predicate RunAllowed(docs: seq<Document>, steps: seq<Step>, n: nat, id: string)
    requires n <= |steps|
  {
    n == 0 || (RunAllowed(docs, steps, n - 1, id) && Allowed(After(docs, steps, n - 1), steps[n - 1], id))
  }

  /** Over any run, what is taken from an order stays within its pre-tax subtotal. */
  lemma {:induction false} CapKept(docs: seq<Document>, steps: seq<Step>, n: nat, id: string, lines: seq<DocLine>)
    requires n <= |steps| && HasOrder(docs, id, lines) && Capped(docs, id, lines)
    requires RunAllowed(docs, steps, n, id)
    ensures HasOrder(After(docs, steps, n), id, lines) && Capped(After(docs, steps, n), id, lines)
  {
    if n > 0 {
      CapKept(docs, steps, n - 1, id, lines);
      StepKeepsCap(After(docs, steps, n - 1), steps[n - 1], id, lines);
    }
  }

  /** A void keeps the cap exactly when the order's open amount covers what the void takes back. */
  lemma VoidKeepsCap(docs: seq<Document>, gone: string, reason: string, id: string, lines: seq<DocLine>)
    requires HasOrder(docs, id, lines)
    ensures Capped(Next(docs, VoidDocument(gone, reason)), id, lines) <==>
            LinesWorth(lines, |lines|) - AllTaken(docs, id) >= -GivenBack(docs, gone, id, |docs|)
  {
    VoidingGivesBack(docs, gone, reason, id, |docs|);
  }

  /** Asking for one line bills that line. */
  lemma {:induction false} OneLine(order: Document, wanted: seq<ConvertLine>, line: DocLine)
    requires |wanted| == 1 && FindLine(order.lines, wanted[0].lineNo, |order.lines|) == Some(line)
    ensures var pick := Pick(line, wanted[0].qty);
            && Picked(order, wanted, 1) == Success([pick])
            && BilledLines(order.id, [pick], 1) ==
               (match Billed(order.id, pick, 1) case Success(one) => Success([one]) case Failure(e) => Failure(e))
  {
    var pick := Pick(line, wanted[0].qty);
    assert Picked(order, wanted, 0) == Success([]) && [] + [pick] == [pick];
    assert BilledLines(order.id, [pick], 0) == Success([]);
    if Billed(order.id, pick, 1).Success? {
      var one := Billed(order.id, pick, 1).value;
      assert [] + [one] == [one];
    }
  }

  /** An open order that gives one whole line of its own: the invoice for it. */
  lemma {:induction false} WholeLineInvoice(docs: seq<Document>, id: string, request: ConvertRequest, line: DocLine)
    requires Closed(docs, id).None? && request.lines.Some? && |request.lines.value| == 1 &&
        request.lines.value[0].qty.None?
    requires var order := FindDocument(docs, id, |docs|).value;
             && FindLine(order.lines, request.lines.value[0].lineNo, |order.lines|) == Some(line)
             && LineWorth(line) <= Subtotal(order) - AllTaken(docs, id)
    ensures var invoice := InvoiceWith(FindDocument(docs, id, |docs|).value, request, [line.(lineNo := 1)]);
            InvoiceFor(docs, id, request) == Success(invoice) && Took(invoice, id) == LineWorth(line)
  {
    var order := FindDocument(docs, id, |docs|).value;
    FoundHasId(docs, id, |docs|);
    OneLine(order, request.lines.value, line);
    var lines := [line.(lineNo := 1)];
    assert LinesWorth(lines, 1) == LinesWorth(lines, 0) + LineWorth(lines[0]);
    ConversionTakes(order, AllTaken(docs, id), request, id);
  }

  function ItemAndDiscount(): Document {
    Document("so", SalesOrder, None, 1, None, None, [DocLine(Item, 100, 1), DocLine(Discount, 10, 2)], None, [], 0,
        false, None)
  }

  function Asking(invoice: string, lineNo: int): ConvertRequest {
    ConvertRequest(invoice, 2, Some([ConvertLine(lineNo, None)]), None, None)
  }

  lemma ItemAndDiscountLines()
    ensures var so := ItemAndDiscount();
            && FindLine(so.lines, 1, 2) == Some(so.lines[0]) && FindLine(so.lines, 2, 2) == Some(so.lines[1])
            && Subtotal(so) == 90 && FindDocument([so], "so", 1) == Some(so) && AllTaken([so], "so") == 0
  {
    var so := ItemAndDiscount();
    assert FindLine(so.lines, 1, 1) == Some(so.lines[0]) && FindLine(so.lines, 2, 1) == None;
    assert LinesWorth(so.lines, 1) == LinesWorth(so.lines, 0) + 100;
    assert FindDocument([so], "so", 0) == None && TakenFrom([so], "so", None, 0) == 0;
  }

  /** Billing a discount by itself, then the item, then voiding the discount's invoice, leaves more taken than ordered.
      */
  lemma {:induction false} VoidedDiscountOvertakes(steps: seq<Step>)
    requires |steps| == 3 && steps[0] == ConvertOrder("so", Asking("a", 2), None, None, None)
    requires steps[1] == ConvertOrder("so", Asking("b", 1), None, None, None) && steps[2] == VoidDocument("a", "")
    ensures var so := ItemAndDiscount();
            Capped([so], "so", so.lines) && AllTaken(After([so], steps, 3), "so") == 100 &&
                !Capped(After([so], steps, 3), "so", so.lines)
  {
    var so := ItemAndDiscount();
    ItemAndDiscountLines();
    WholeLineInvoice([so], "so", Asking("a", 2), so.lines[1]);
    var a := InvoiceWith(so, Asking("a", 2), [so.lines[1].(lineNo := 1)]);
    var one := [so] + [a];
    assert After([so], steps, 1) == Next(After([so], steps, 0), steps[0]) == one;
    SavingTakes([so], a, "so");
    FindAppended([so], a, "so", 1);
    WholeLineInvoice(one, "so", Asking("b", 1), so.lines[0]);
    var b := InvoiceWith(so, Asking("b", 1), [so.lines[0]]);
    var two := one + [b];
    assert After([so], steps, 2) == two;
    SavingTakes(one, b, "so");
    VoidingGivesBack(two, "a", "", "so", 3);
    assert GivenBack(two, "a", "so", 0) == 0 == GivenBack(two, "a", "so", 1) && GivenBack(two, "a", "so", 2) == -10;
  }

  // ---- Whole and part conversions ----

  lemma {:induction false} WholeBills(id: string, lines: seq<DocLine>, n: nat)
    requires n <= |lines|
    ensures var billed := BilledLines(id, WholeLines(lines), n);
            billed.Success? && |billed.value| == n && LinesWorth(billed.value, n) == LinesWorth(lines, n)
  {
    if n > 0 {
      WholeBills(id, lines, n - 1);
      var before := BilledLines(id, WholeLines(lines), n - 1).value;
      WorthAgrees(before, before + [lines[n - 1].(lineNo := n)], n - 1);
    }
  }

  lemma {:induction false} WorthAgrees(lines: seq<DocLine>, lines': seq<DocLine>, n: nat)
    requires n <= |lines| && n <= |lines'|
    requires forall i :: 0 <= i < n ==> lines[i] == lines'[i]
    ensures LinesWorth(lines, n) == LinesWorth(lines', n)
  {
    if n > 0 { WorthAgrees(lines, lines', n - 1); }
  }

  /** Converting a whole order is accepted exactly when nothing was taken yet and it is worth something. */
  lemma {:induction false} WholeConverts(docs: seq<Document>, id: string, request: ConvertRequest)
    requires request.lines.None?
    ensures InvoiceFor(docs, id, request).Success? <==>
            var found := FindDocument(docs, id, |docs|);
            && found.Some? && found.value.kind.SalesOrder? && !found.value.isVoided
            && AllTaken(docs, id) == 0 && Subtotal(found.value) > 0
    ensures InvoiceFor(docs, id, request).Success? ==>
            Subtotal(InvoiceFor(docs, id, request).value) == Subtotal(FindDocument(docs, id, |docs|).value)
  {
    FoundHasId(docs, id, |docs|);
    if Closed(docs, id).None? {
      var order := FindDocument(docs, id, |docs|).value;
      WholeBills(id, order.lines, |order.lines|);
    }
  }

  /** Converting a whole order leaves nothing open on it: it can be neither converted again nor listed as open. */
  lemma {:induction false} WholeConversionCloses(docs: seq<Document>, id: string, step: Step)
    requires step.ConvertOrder? && step.order == id && step.request.lines.None?
    requires InvoiceFor(docs, id, step.request).Success?
    ensures var order := FindDocument(docs, id, |docs|).value;
            AllTaken(Next(docs, step), id) == Subtotal(order)
    ensures Closed(Next(docs, step), id) == Some(NothingOpen(id))
  {
    FoundHasId(docs, id, |docs|);
    WholeConverts(docs, id, step.request);
    var order := FindDocument(docs, id, |docs|).value;
    ConversionTakes(order, AllTaken(docs, id), step.request, id);
    var doc := Prepared(InvoiceFor(docs, id, step.request).value, step.number, step.due, step.tax);
    SavingTakes(docs, doc, id);
    FindAppended(docs, doc, id, |docs|);
  }

  /** The open listing shows precisely the orders that can still be converted. */
  lemma {:induction false} ListedIffOpen(docs: seq<Document>, names: map<string, string>, id: string, n: nat)
    requires n <= |docs| && Distinct(docs)
    ensures (exists k ::
        0 <= k < |OrderRows(docs, names, None, true, n)| && OrderRows(docs, names, None, true, n)[k].id == id) <==>
            FindDocument(docs, id, n).Some? && Closed(docs, id).None?
  {
    if n > 0 {
      ListedIffOpen(docs, names, id, n - 1);
      FoundHasId(docs, id, n - 1);
      var before, rows := OrderRows(docs, names, None, true, n - 1), OrderRows(docs, names, None, true, n);
      if docs[n - 1].id == id { FindHere(docs, id, n - 1); }
      if IsListed(docs, None, true, docs[n - 1]) {
        assert rows[|before|].id == docs[n - 1].id;
        assert forall k :: 0 <= k < |before| ==> rows[k] == before[k];
      }
    }
  }

  lemma FindHere(docs: seq<Document>, id: string, at: nat)
    requires at < |docs| && docs[at].id == id && FindDocument(docs, id, at).None?
    ensures FindDocument(docs, id, |docs|) == Some(docs[at])
  {
    FindFrom(docs, id, at + 1, docs[at]);
  }

  lemma {:induction false} FindFrom(docs: seq<Document>, id: string, n: nat, doc: Document)
    requires n <= |docs| && FindDocument(docs, id, n) == Some(doc)
    ensures FindDocument(docs, id, |docs|) == Some(doc)
    decreases |docs| - n
  {
    if n < |docs| { FindFrom(docs, id, n + 1, doc); }
  }

  /** The exact worth of part `qty` of `ordered`. */
  function Share(worth: int, qty: real, ordered: real): real
    requires ordered != 0.0
  {
    worth as real * qty / ordered
  }

  lemma ShareAdd(worth: int, p: real, q: real, ordered: real)
    requires ordered != 0.0
    ensures Share(worth, p + q, ordered) == Share(worth, p, ordered) + Share(worth, q, ordered)
  {
    var w := worth as real;
    assert w * (p + q) == w * p + w * q;
  }

  lemma ShareWhole(worth: int, ordered: real)
    requires ordered != 0.0
    ensures Share(worth, ordered, ordered) == worth as real && Share(worth, 0.0, ordered) == 0.0
  {}

  ghost predicate WithinHalves(x: real, y: real, halves: nat) { -(halves as real) <= 2.0 * (x - y) <= halves as real }

  lemma {:induction false} PartNear(line: DocLine, qty: real, ordered: real)
    requires ordered != 0.0
    ensures WithinHalves(LineWorth(line.(amount := PartAmount(line.amount, qty, ordered))) as real,
        Share(LineWorth(line), qty, ordered), 1)
  {
    var a := line.amount as real;
    assert Share(-line.amount, qty, ordered) == -Share(line.amount, qty, ordered) by {
      assert (-a) * qty == -(a * qty);
    }
    assert Share(0, qty, ordered) == 0.0;
    assert WithinHalves(PartAmount(line.amount, qty, ordered) as real, Share(line.amount, qty, ordered), 1);
  }

  /** A conversion of part of one line. */
  predicate IsPart(step: Step, id: string, lineNo: int) {
    && step.ConvertOrder? && step.order == id && step.request.lines.Some? && |step.request.lines.value| == 1
    && step.request.lines.value[0].lineNo == lineNo && step.request.lines.value[0].qty.Some?
  }

  function PartQty(step: Step): real {
    if step.ConvertOrder? && step.request.lines.Some? && |step.request.lines.value| == 1 &&
        step.request.lines.value[0].qty.Some?
    then step.request.lines.value[0].qty.value else 0.0
  }

  /** Each of the first `n` steps is an accepted conversion of part of the line. */
  predicate PartRun(docs: seq<Document>, steps: seq<Step>, n: nat, id: string, lineNo: int)
    requires n <= |steps|
  {
    n == 0 ||
    (&& PartRun(docs, steps, n - 1, id, lineNo) && IsPart(steps[n - 1], id, lineNo)
     && InvoiceFor(After(docs, steps, n - 1), id, steps[n - 1].request).Success?)
  }

  function PartQtys(steps: seq<Step>, n: nat): real
    requires n <= |steps|
  {
    if n == 0 then 0.0 else PartQtys(steps, n - 1) + PartQty(steps[n - 1])
  }

  /** What a part of a line bills. */
  function PartWorth(line: DocLine, qty: real): int
    requires line.qty.Some? && line.qty.value != 0.0
  {
    LineWorth(line.(amount := PartAmount(line.amount, qty, line.qty.value)))
  }

  function PartWorths(line: DocLine, steps: seq<Step>, n: nat): int
    requires line.qty.Some? && line.qty.value != 0.0 && n <= |steps|
  {
    if n == 0 then 0 else PartWorths(line, steps, n - 1) + PartWorth(line, PartQty(steps[n - 1]))
  }

  /** A request for part of one line of an open order is accepted exactly when the quantity is above zero and at
      most the line's, and what it bills fits in what is open; and then that is what it bills. */
  lemma {:induction false} PartConversion(order: Document, taken: int, request: ConvertRequest, line: DocLine,
                                          qty: real)
    requires request.lines.Some? && |request.lines.value| == 1 && request.lines.value[0].qty == Some(qty)
    requires FindLine(order.lines, request.lines.value[0].lineNo, |order.lines|) == Some(line)
    requires line.qty.Some? && line.qty.value != 0.0
    ensures Conversion(order, taken, request).Success? <==>
            0.0 < qty <= line.qty.value && PartWorth(line, qty) <= Subtotal(order) - taken
    ensures Conversion(order, taken, request).Success? ==>
            Subtotal(Conversion(order, taken, request).value) == PartWorth(line, qty)
  {
    OneLine(order, request.lines.value, line);
    var billed := Billed(order.id, Pick(line, Some(qty)), 1);
    if billed.Success? {
      assert LinesWorth([billed.value], 1) == LinesWorth([billed.value], 0) + LineWorth(billed.value);
    }
  }

  /** An accepted conversion takes what its invoice is worth, and leaves the order. */
  lemma {:induction false} ConvertedTakes(docs: seq<Document>, step: Step, id: string, lines: seq<DocLine>)
    requires HasOrder(docs, id, lines) && step.ConvertOrder? && step.order == id &&
        InvoiceFor(docs, id, step.request).Success?
    ensures AllTaken(Next(docs, step), id) == AllTaken(docs, id) + Subtotal(InvoiceFor(docs, id, step.request).value)
    ensures HasOrder(Next(docs, step), id, lines)
  {
    FoundHasId(docs, id, |docs|);
    ConversionTakes(FindDocument(docs, id, |docs|).value, AllTaken(docs, id), step.request, id);
    var doc := Prepared(InvoiceFor(docs, id, step.request).value, step.number, step.due, step.tax);
    SavingTakes(docs, doc, id);
    FindAppended(docs, doc, id, |docs|);
  }

  /** A part of a line is accepted exactly when the order is open, the quantity is above zero and at most the line's,
      and what it bills fits in what is open. */
  lemma {:induction false} PartAccepted(docs: seq<Document>, step: Step, id: string, lineNo: int, lines: seq<DocLine>,
                                        line: DocLine)
    requires HasOrder(docs, id, lines) && IsPart(step, id, lineNo)
    requires FindLine(lines, lineNo, |lines|) == Some(line) && line.qty.Some? && line.qty.value != 0.0
    ensures InvoiceFor(docs, id, step.request).Success? <==>
            && Closed(docs, id).None? && 0.0 < PartQty(step) <= line.qty.value
            && PartWorth(line, PartQty(step)) <= LinesWorth(lines, |lines|) - AllTaken(docs, id)
    ensures InvoiceFor(docs, id, step.request).Success? ==>
            AllTaken(Next(docs, step), id) == AllTaken(docs, id) + PartWorth(line, PartQty(step)) &&
                HasOrder(Next(docs, step), id, lines)
  {
    PartConversion(FindDocument(docs, id, |docs|).value, AllTaken(docs, id), step.request, line, PartQty(step));
    if InvoiceFor(docs, id, step.request).Success? { ConvertedTakes(docs, step, id, lines); }
  }

  lemma {:induction false} PartsNearNext(line: DocLine, steps: seq<Step>, n: nat)
    requires line.qty.Some? && line.qty.value != 0.0 && 0 < n <= |steps|
    requires WithinHalves(PartWorths(line, steps, n - 1) as real,
        Share(LineWorth(line), PartQtys(steps, n - 1), line.qty.value), n - 1)
    ensures WithinHalves(PartWorths(line, steps, n) as real,
        Share(LineWorth(line), PartQtys(steps, n), line.qty.value), n)
  {
    ShareAdd(LineWorth(line), PartQtys(steps, n - 1), PartQty(steps[n - 1]), line.qty.value);
    PartNear(line, PartQty(steps[n - 1]), line.qty.value);
  }

  /** However many part conversions take a line, they bill within half a cent each of the exact share they took;
      so when they take its whole quantity, within half a cent each of the line. */
  lemma {:induction false} PartsBillTheLine(docs: seq<Document>, steps: seq<Step>, n: nat, id: string, lineNo: int,
                                            lines: seq<DocLine>, line: DocLine)
    requires n <= |steps| && HasOrder(docs, id, lines)
    requires FindLine(lines, lineNo, |lines|) == Some(line) && line.qty.Some? && line.qty.value != 0.0
    requires PartRun(docs, steps, n, id, lineNo)
    ensures HasOrder(After(docs, steps, n), id, lines)
    ensures AllTaken(After(docs, steps, n), id) == AllTaken(docs, id) + PartWorths(line, steps, n)
    ensures WithinHalves(PartWorths(line, steps, n) as real,
        Share(LineWorth(line), PartQtys(steps, n), line.qty.value), n)
    ensures PartQtys(steps, n) == line.qty.value ==>
        WithinHalves(PartWorths(line, steps, n) as real, LineWorth(line) as real, n)
  {
    ShareWhole(LineWorth(line), line.qty.value);
    if n > 0 {
      PartsBillTheLine(docs, steps, n - 1, id, lineNo, lines, line);
      PartAccepted(After(docs, steps, n - 1), steps[n - 1], id, lineNo, lines, line);
      PartsNearNext(line, steps, n);
    }
  }

  /** The half cents are real: three thirds of a dollar bill 99 cents, so an order whose whole quantity is billed keeps
      a cent open. */
  lemma {:induction false} PartsLeaveACent(docs: seq<Document>, steps: seq<Step>, id: string)
    requires var line := DocLine(Item, 100, 1, Some(3.0)); HasOrder(docs, id, [line]) && AllTaken(docs, id) == 0
    requires |steps| == 3 && PartRun(docs, steps, 3, id, 1)
    requires forall i :: 0 <= i < 3 ==> PartQty(steps[i]) == 1.0
    ensures AllTaken(After(docs, steps, 3), id) == 99 && PartQtys(steps, 3) == 3.0
  {
    var line := DocLine(Item, 100, 1, Some(3.0));
    assert FindLine([line], 1, 1) == Some(line) by { assert FindLine([line], 1, 0) == None; }
    PartsBillTheLine(docs, steps, 3, id, 1, [line], line);
    RoundUnique(100.0 / 3.0, 33);
    assert PartWorth(line, 1.0) == 33;
    assert PartWorths(line, steps, 0) == 0 && PartWorths(line, steps, 1) == 33 && PartWorths(line, steps, 2) == 66;
    assert PartQtys(steps, 0) == 0.0 && PartQtys(steps, 1) == 1.0 && PartQtys(steps, 2) == 2.0;
  }
}
