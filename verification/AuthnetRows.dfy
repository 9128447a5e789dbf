/** What batches and documents hold, told from the rows of the file and their statuses. */
module AuthnetRows {
  import opened Wrappers
  import opened Documents
  import opened OpenItems
  import opened Overuse
  import opened Authnet

  // ---- The first row of a batch ----

  /** The first settled row of a batch. */
  predicate IsFirstOf(rows: seq<Row>, id: string, k: nat) {
    k < |rows| && IsOf(rows[k], id) && forall j :: 0 <= j < k ==> !IsOf(rows[j], id)
  }

  lemma {:induction false} FirstDateIs(rows: seq<Row>, id: string, n: nat, k: nat)
    requires IsFirstOf(rows, id, k) && k < n <= |rows|
    ensures FirstDate(rows, id, n) == rows[k].date && TxnsOf(rows, id, n) != []
  {
    if n - 1 == k {
      NoneOf(rows, id, k);
    } else {
      FirstDateIs(rows, id, n - 1, k);
    }
  }

  lemma {:induction false} NoneOf(rows: seq<Row>, id: string, n: nat)
    requires n <= |rows| && forall j :: 0 <= j < n ==> !IsOf(rows[j], id)
    ensures TxnsOf(rows, id, n) == [] && id !in BatchIds(rows, n)
  {
    if n > 0 { NoneOf(rows, id, n - 1); }
  }

  lemma {:induction false} FirstOf(rows: seq<Row>, id: string, n: nat) returns (k: nat)
    requires n <= |rows| && id in BatchIds(rows, n)
    ensures IsFirstOf(rows, id, k) && k < n
  {
    if id in BatchIds(rows, n - 1) {
      k := FirstOf(rows, id, n - 1);
    } else {
      k := n - 1;
      NotListed(rows, id, n - 1);
    }
  }

  lemma NotListed(rows: seq<Row>, id: string, n: nat)
    requires n <= |rows| && id !in BatchIds(rows, n)
    ensures forall j :: 0 <= j < n ==> !IsOf(rows[j], id)
  {}

  // ---- Batches ----

  /** A batch tells its rows: what was received, what was given back, and the difference. */
  ghost predicate TellsBatch(rows: seq<Row>, b: Batch) {
    && b.gross == AmountOf(rows, b.id, SettledSuccessfully, |rows|)
    && b.refunds == AmountOf(rows, b.id, RefundSettledSuccessfully, |rows|)
    && b.net == b.gross - b.refunds && b.fee == None
    && TellRows(b.txns, RowsOf(rows, b.id, |rows|))
    && exists k: nat :: IsFirstOf(rows, b.id, k) && b.settledOn == rows[k].date
  }

  /** Every batch tells its rows. */
  lemma BatchTells(rows: seq<Row>, batches: seq<Batch>, i: nat)
    requires Groups(rows, batches) && i < |batches|
    ensures TellsBatch(rows, batches[i])
  {
    var id := BatchIds(rows, |rows|)[i];
    TotalsOf(rows, id, |rows|);
    TxnsTellRows(rows, id, |rows|);
    var k := FirstOf(rows, id, |rows|);
    FirstDateIs(rows, id, |rows|, k);
  }

  /** The batches, by their first rows. */
  lemma {:induction false} IdsInOrder(rows: seq<Row>, n: nat, i: nat, j: nat, k: nat, l: nat)
    requires n <= |rows| && i < j < |BatchIds(rows, n)|
    requires IsFirstOf(rows, BatchIds(rows, n)[i], k) && IsFirstOf(rows, BatchIds(rows, n)[j], l)
    ensures k < l
  {
    var ids := BatchIds(rows, n);
    if j < |BatchIds(rows, n - 1)| {
      IdsInOrder(rows, n - 1, i, j, k, l);
    } else {
      NotListed(rows, ids[j], n - 1);
      var k' := FirstOf(rows, ids[i], n - 1);
    }
  }

  /** Batch `i` starts at row `k`, a later batch `j` at row `l`. */
  predicate StartAt(rows: seq<Row>, batches: seq<Batch>, i: nat, j: nat, k: nat, l: nat) {
    i < j < |batches| && IsFirstOf(rows, batches[i].id, k) && IsFirstOf(rows, batches[j].id, l)
  }

  /** There is one batch for every id with a settled row, in the order of their first ones. */
  lemma BatchesAre(rows: seq<Row>, batches: seq<Batch>)
    requires Groups(rows, batches)
    ensures forall r :: 0 <= r < |rows| && IsOf(rows[r], rows[r].batchId) ==>
              exists i :: 0 <= i < |batches| && batches[i].id == rows[r].batchId
    ensures forall i: nat, j: nat, k: nat, l: nat :: StartAt(rows, batches, i, j, k, l) ==> k < l
  {
    forall r | 0 <= r < |rows| && IsOf(rows[r], rows[r].batchId)
      ensures exists i :: 0 <= i < |batches| && batches[i].id == rows[r].batchId
    {
      var i :| 0 <= i < |BatchIds(rows, |rows|)| && BatchIds(rows, |rows|)[i] == rows[r].batchId;
      assert batches[i].id == rows[r].batchId;
    }
    forall i: nat, j: nat, k: nat, l: nat | StartAt(rows, batches, i, j, k, l)
      ensures k < l
    {
      IdsInOrder(rows, |rows|, i, j, k, l);
    }
  }

  // ---- Documents ----

  /** A settled sale is a payment of its amount, applied to no more than what its invoice names. */
  predicate TellsSale(doc: Document, row: Row, resolve: Resolver) {
    && doc.kind == DocKind.Payment && RecordedAll(doc.applications, |doc.applications|) + doc.unapplied == row.amount
    && |doc.applications| <= 1
    && (doc.applications != [] ==>
          && row.invoice.Some? && resolve(row.invoice.value).Some?
          && doc.applications[0].target == resolve(row.invoice.value).value.id
          && doc.applications[0].targetKind == resolve(row.invoice.value).value.kind)
  }

  /** A settled refund is a refund receipt of its amount. */
  predicate TellsRefund(doc: Document, row: Row) {
    && doc.kind == DocKind.RefundReceipt && DocumentTotal(doc) == row.amount && doc.applications == []
    && doc.unapplied == 0
  }

  predicate TellsDoc(doc: Document, row: Row, on: int, resolve: Resolver) {
    && doc.id == "authnet:txn:" + row.txnId && doc.date == on && !doc.isVoided
    && doc.contact == (if row.customer.Some? then Some(Contact(Customer, row.customer.value)) else None)
    && (row.status == SettledSuccessfully || row.status == RefundSettledSuccessfully)
    && (if row.status == SettledSuccessfully then TellsSale(doc, row, resolve) else TellsRefund(doc, row))
  }

  lemma DocTells(date: int, done: seq<Txn>, t: Txn, row: Row, resolve: Resolver)
    requires TellsRow(t, row) && IsSettled(row)
    ensures TellsDoc(DocOf(date, done, t, resolve), row, date, resolve)
  {
    DocSplits(date, done, t, resolve);
  }

  predicate AllTell(docs: seq<Document>, rows: seq<Row>, on: int, resolve: Resolver, n: nat) {
    |docs| == n <= |rows| && forall m :: 0 <= m < n ==> TellsDoc(docs[m], rows[m], on, resolve)
  }

  lemma OneMoreTells(docs: seq<Document>, doc: Document, rows: seq<Row>, on: int, resolve: Resolver, n: nat)
    requires AllTell(docs, rows, on, resolve, n) && n < |rows| && TellsDoc(doc, rows[n], on, resolve)
    ensures AllTell(docs + [doc], rows, on, resolve, n + 1)
  {}

  /** Each transaction of a batch is the document its row calls for. */
  lemma DocsTell(batch: Batch, done: seq<Txn>, resolve: Resolver, rows: seq<Row>)
    requires TellRows(batch.txns, rows) && forall m :: 0 <= m < |rows| ==> IsSettled(rows[m])
    ensures AllTell(TxnDocs(batch, done, |batch.txns|, resolve), rows, batch.settledOn, resolve, |rows|)
  {
    for n := 0 to |batch.txns|
      invariant AllTell(TxnDocs(batch, done, n, resolve), rows, batch.settledOn, resolve, n)
    {
      var t := batch.txns[n];
      DocTells(batch.settledOn, done + batch.txns[..n], t, rows[n], resolve);
      OneMoreTells(TxnDocs(batch, done, n, resolve), DocOf(batch.settledOn, done + batch.txns[..n], t, resolve), rows,
                   batch.settledOn, resolve, n);
    }
  }

  /** A batch's settlement moves what its rows come to out of clearing. */
  predicate TellsSettlement(doc: Document, rows: seq<Row>, id: string, on: int) {
    && doc.id == "authnet:" + id && doc.kind == DocKind.Settlement && doc.date == on && !doc.isVoided
    && doc.lines == [DocLine(AccountLine, AmountOf(rows, id, SettledSuccessfully, |rows|) -
                                          AmountOf(rows, id, RefundSettledSuccessfully, |rows|))]
    && doc.applications == [] && doc.unapplied == 0
  }

  lemma SettlementTells(rows: seq<Row>, b: Batch)
    requires TellsBatch(rows, b)
    ensures TellsSettlement(SettlementOf(b), rows, b.id, b.settledOn)
  {}

  /** Each batch becomes its settlement and, in the order of its rows, a payment for every settled sale and a refund
      receipt for every settled refund; what those move is what the settlement takes out. */
  lemma BatchBuilds(rows: seq<Row>, batches: seq<Batch>, i: nat, done: seq<Txn>, resolve: Resolver)
    requires Groups(rows, batches) && i < |batches|
    ensures var b := batches[i];
            var docs, of := TxnDocs(b, done, |b.txns|, resolve), RowsOf(rows, b.id, |rows|);
            && TellsSettlement(SettlementOf(b), rows, b.id, b.settledOn)
            && AllTell(docs, of, b.settledOn, resolve, |of|)
            && ClearingOf(docs) == AmountOf(rows, b.id, SettledSuccessfully, |rows|) -
                                   AmountOf(rows, b.id, RefundSettledSuccessfully, |rows|)
  {
    var b := batches[i];
    BatchTells(rows, batches, i);
    SettlementTells(rows, b);
    DocsTell(b, done, resolve, RowsOf(rows, b.id, |rows|));
    GroupedClears(rows, batches, i, done, resolve);
  }

  // ---- What invoices are paid ----

  /** A settled sale that names an invoice by one of its numbers. */
  predicate RowNames(row: Row, id: string, resolve: Resolver) {
    && row.status == SettledSuccessfully && row.invoice.Some?
    && resolve(row.invoice.value).Some? && resolve(row.invoice.value).value.id == id
  }

  /** What the first `n` rows bring for an invoice. */
  function Brought(rows: seq<Row>, id: string, resolve: Resolver, n: nat): int
    requires n <= |rows|
  {
    if n == 0 then 0
    else Brought(rows, id, resolve, n - 1) + (if RowNames(rows[n - 1], id, resolve) then rows[n - 1].amount else 0)
  }

  lemma NamedSnoc(txns: seq<Txn>, t: Txn, id: string, resolve: Resolver)
    ensures Named(txns + [t], id, resolve) == Named(txns, id, resolve) + Flag(Names(t, id, resolve), t.amount)
  {
    assert (txns + [t])[..|txns|] == txns;
  }

  lemma {:induction false} NamedAppend(txns: seq<Txn>, more: seq<Txn>, id: string, resolve: Resolver)
    ensures Named(txns + more, id, resolve) == Named(txns, id, resolve) + Named(more, id, resolve)
  {
    if more == [] {
      assert txns + more == txns;
    } else {
      NamedAppend(txns, more[..|more| - 1], id, resolve);
      assert txns + more == (txns + more[..|more| - 1]) + [more[|more| - 1]];
      NamedSnoc(txns + more[..|more| - 1], more[|more| - 1], id, resolve);
    }
  }

  /** What the first `m` of some batches bring together, over the first `n` rows. */
  function NamedOver(rows: seq<Row>, ids: seq<string>, id: string, resolve: Resolver, n: nat, m: nat): int
    requires n <= |rows| && m <= |ids|
  {
    if m == 0 then 0
    else NamedOver(rows, ids, id, resolve, n, m - 1) + Named(TxnsOf(rows, ids[m - 1], n), id, resolve)
  }

  lemma NamedNext(rows: seq<Row>, batch: string, id: string, resolve: Resolver, n: nat)
    requires n < |rows|
    ensures Named(TxnsOf(rows, batch, n + 1), id, resolve) ==
            Named(TxnsOf(rows, batch, n), id, resolve) +
            (if rows[n].batchId == batch && RowNames(rows[n], id, resolve) then rows[n].amount else 0)
  {
    if IsSettled(rows[n]) && rows[n].batchId == batch {
      NamedSnoc(TxnsOf(rows, batch, n), TxnOf(rows[n]), id, resolve);
    }
  }

  /** What a row brings to the first `k` batches. */
  function BroughtTo(row: Row, ids: seq<string>, id: string, resolve: Resolver, k: nat): int
    requires k <= |ids|
  {
    if row.batchId in ids[..k] && RowNames(row, id, resolve) then row.amount else 0
  }

  lemma BroughtOnce(row: Row, ids: seq<string>, id: string, resolve: Resolver, k: nat)
    requires k < |ids| && NoRepeats(ids)
    ensures BroughtTo(row, ids, id, resolve, k + 1) ==
            BroughtTo(row, ids, id, resolve, k) +
            (if row.batchId == ids[k] && RowNames(row, id, resolve) then row.amount else 0)
  {
    assert ids[..k + 1] == ids[..k] + [ids[k]];
  }

  /** One more row brings its amount once, to the batch it is of. */
  lemma NamedOverNext(rows: seq<Row>, ids: seq<string>, id: string, resolve: Resolver, n: nat)
    requires n < |rows| && NoRepeats(ids)
    ensures NamedOver(rows, ids, id, resolve, n + 1, |ids|) ==
            NamedOver(rows, ids, id, resolve, n, |ids|) + BroughtTo(rows[n], ids, id, resolve, |ids|)
  {
    for k := 0 to |ids|
      invariant NamedOver(rows, ids, id, resolve, n + 1, k) ==
                NamedOver(rows, ids, id, resolve, n, k) + BroughtTo(rows[n], ids, id, resolve, k)
    {
      BroughtOnce(rows[n], ids, id, resolve, k);
      NamedNext(rows, ids[k], id, resolve, n);
    }
  }

  lemma NamedOverNone(rows: seq<Row>, ids: seq<string>, id: string, resolve: Resolver)
    ensures NamedOver(rows, ids, id, resolve, 0, |ids|) == 0
  {
    for m := 0 to |ids|
      invariant NamedOver(rows, ids, id, resolve, 0, m) == 0
    {}
  }

  lemma NamedIsBrought(rows: seq<Row>, ids: seq<string>, id: string, resolve: Resolver)
    requires NoRepeats(ids)
    requires ListsAll(rows, ids, |rows|)
    ensures NamedOver(rows, ids, id, resolve, |rows|, |ids|) == Brought(rows, id, resolve, |rows|)
  {
    NamedOverNone(rows, ids, id, resolve);
    assert ids[..|ids|] == ids;
    for n := 0 to |rows|
      invariant NamedOver(rows, ids, id, resolve, n, |ids|) == Brought(rows, id, resolve, n)
    {
      NamedOverNext(rows, ids, id, resolve, n);
    }
  }

  lemma NamedInBatches(rows: seq<Row>, batches: seq<Batch>, id: string, resolve: Resolver)
    requires Groups(rows, batches)
    ensures Named(AllOf(batches, |batches|), id, resolve) == Brought(rows, id, resolve, |rows|)
  {
    var ids := BatchIds(rows, |rows|);
    for m := 0 to |batches|
      invariant Named(AllOf(batches, m), id, resolve) == NamedOver(rows, ids, id, resolve, |rows|, m)
    {
      NamedAppend(AllOf(batches, m), batches[m].txns, id, resolve);
    }
    NamedIsBrought(rows, ids, id, resolve);
  }

  /** No settled sale of the file is negative. */
  predicate NoNegativeSale(rows: seq<Row>) {
    forall r :: 0 <= r < |rows| && rows[r].status == SettledSuccessfully ==> rows[r].amount >= 0
  }

  lemma RowsNotNegative(rows: seq<Row>, id: string)
    requires NoNegativeSale(rows)
    ensures NoNegativeSale(RowsOf(rows, id, |rows|))
  {
    var of := RowsOf(rows, id, |rows|);
    forall m | 0 <= m < |of| && of[m].status == SettledSuccessfully
      ensures of[m].amount >= 0
    {
      assert of[m] in rows[..|rows|];
    }
  }

  lemma BatchNotNegative(txns: seq<Txn>, rows: seq<Row>)
    requires TellRows(txns, rows) && NoNegativeSale(rows)
    ensures SalesNonnegative(txns)
  {
    forall i | 0 <= i < |txns| && txns[i].kind.Sale?
      ensures txns[i].amount >= 0
    {
      assert TellsRow(txns[i], rows[i]);
    }
  }

  lemma NoneNegative(rows: seq<Row>, batches: seq<Batch>)
    requires Groups(rows, batches) && NoNegativeSale(rows)
    ensures SalesNonnegative(AllOf(batches, |batches|))
  {
    for m := 0 to |batches|
      invariant SalesNonnegative(AllOf(batches, m))
    {
      BatchTells(rows, batches, m);
      RowsNotNegative(rows, batches[m].id);
      BatchNotNegative(batches[m].txns, RowsOf(rows, batches[m].id, |rows|));
      BothNonnegative(AllOf(batches, m), batches[m].txns);
    }
  }

  lemma BothNonnegative(txns: seq<Txn>, more: seq<Txn>)
    requires SalesNonnegative(txns) && SalesNonnegative(more)
    ensures SalesNonnegative(txns + more)
  {}

  /** An invoice is paid what the file's settled sales bring for it, as far as it was open, whatever their batches. */
  lemma InvoicePaidByRows(rows: seq<Row>, batches: seq<Batch>, id: string, open: int, resolve: Resolver)
    requires Groups(rows, batches) && NoNegativeSale(rows)
    requires Consistent(resolve) && exists n ::
        resolve(n).Some? && resolve(n).value.id == id && resolve(n).value.open == open
    ensures var owed, brought := if open > 0 then open else 0, Brought(rows, id, resolve, |rows|);
            RecordedIn(DocsOf(batches, |batches|, resolve), id) == if brought < owed then brought else owed
  {
    NamedInBatches(rows, batches, id, resolve);
    NoneNegative(rows, batches);
    InvoicePaid(batches, id, open, resolve);
  }
}
