/** Card settlements: grouping the processor's rows into batches, and the documents a batch
    becomes. */
module Authnet {
  import opened Wrappers
  import opened Documents
  import opened OpenItems
  import opened Overuse

  datatype Status = SettledSuccessfully | RefundSettledSuccessfully | Voided | Declined

  datatype Row = Row(
      txnId: string, batchId: string, date: int, status: Status, amount: int, invoice: Option<string>,
      customer: Option<string>)

  datatype TxnKind = Sale | Refund

  datatype Txn = Txn(id: string, invoice: Option<string>, customer: Option<string>, amount: int, kind: TxnKind)

  datatype Batch = Batch(
      id: string, settledOn: int, gross: int, refunds: int, net: int, txns: seq<Txn>, fee: Option<int>)

  // ---- Grouping ----

  predicate IsSettled(row: Row) { row.status.SettledSuccessfully? || row.status.RefundSettledSuccessfully? }

  function TxnOf(row: Row): Txn
    requires IsSettled(row)
  {
    Txn(row.txnId, row.invoice, row.customer, row.amount, if row.status.SettledSuccessfully? then Sale else Refund)
  }

  /** The batches of the first `n` rows that hold settled money, in the order they first do. */
  function BatchIds(rows: seq<Row>, n: nat): (ids: seq<string>)
    requires n <= |rows|
    ensures forall i, j :: 0 <= i < j < |ids| ==> ids[i] != ids[j]
    ensures forall i :: 0 <= i < n && IsSettled(rows[i]) ==> rows[i].batchId in ids
  {
    if n == 0 then []
    else
      var ids := BatchIds(rows, n - 1);
      if IsSettled(rows[n - 1]) && rows[n - 1].batchId !in ids then ids + [rows[n - 1].batchId] else ids
  }

  /** The settled transactions of a batch among the first `n` rows, in order. */
  function TxnsOf(rows: seq<Row>, id: string, n: nat): seq<Txn>
    requires n <= |rows|
  {
    if n == 0 then []
    else if IsSettled(rows[n - 1]) && rows[n - 1].batchId == id then TxnsOf(rows, id, n - 1) + [TxnOf(rows[n - 1])]
    else TxnsOf(rows, id, n - 1)
  }

  /** The date of the batch's first settled row. */
  function FirstDate(rows: seq<Row>, id: string, n: nat): int
    requires n <= |rows|
  {
    if n == 0 then 0
    else if IsSettled(rows[n - 1]) && rows[n - 1].batchId == id && TxnsOf(rows, id, n - 1) == [] then rows[n - 1].date
    else FirstDate(rows, id, n - 1)
  }

  function TotalOf(txns: seq<Txn>, kind: TxnKind, n: nat): int
    requires n <= |txns|
  {
    if n == 0 then 0 else TotalOf(txns, kind, n - 1) + Flag(txns[n - 1].kind == kind, txns[n - 1].amount)
  }

  function Total(txns: seq<Txn>, kind: TxnKind): int { TotalOf(txns, kind, |txns|) }

  lemma {:induction false} TotalPrefix(txns: seq<Txn>, t: Txn, kind: TxnKind, n: nat)
    requires n <= |txns|
    ensures TotalOf(txns + [t], kind, n) == TotalOf(txns, kind, n)
  {
    if n > 0 { TotalPrefix(txns, t, kind, n - 1); }
  }

  lemma TotalSnoc(txns: seq<Txn>, t: Txn, kind: TxnKind)
    ensures Total(txns + [t], kind) == Total(txns, kind) + Flag(t.kind == kind, t.amount)
  {
    TotalPrefix(txns, t, kind, |txns|);
  }

  /** A batch of the first `n` rows, its net still to be worked out. */
  function Gathering(rows: seq<Row>, id: string, n: nat): Batch
    requires n <= |rows|
  {
    var txns := TxnsOf(rows, id, n);
    Batch(id, FirstDate(rows, id, n), Total(txns, Sale), Total(txns, Refund), 0, txns, None)
  }

  function BatchOf(rows: seq<Row>, id: string): Batch {
    var b := Gathering(rows, id, |rows|);
    b.(net := b.gross - b.refunds)
  }

  /** One batch for every id, in the order of the ids. */
  predicate Groups(rows: seq<Row>, batches: seq<Batch>) {
    var ids := BatchIds(rows, |rows|);
    |batches| == |ids| && forall i :: 0 <= i < |ids| ==> batches[i] == BatchOf(rows, ids[i])
  }

  lemma GatheringNext(rows: seq<Row>, n: nat, id: string)
    requires n < |rows|
    ensures Gathering(rows, id, n + 1)
      == if !IsSettled(rows[n]) || rows[n].batchId != id then Gathering(rows, id, n)
         else
           var was, t := Gathering(rows, id, n), TxnOf(rows[n]);
           Batch(id, if was.txns == [] then rows[n].date else was.settledOn, was.gross + Flag(t.kind == Sale, t.amount),
             was.refunds + Flag(t.kind == Refund, t.amount), 0, was.txns + [t], None)
  {
    if IsSettled(rows[n]) && rows[n].batchId == id {
      TotalSnoc(TxnsOf(rows, id, n), TxnOf(rows[n]), Sale);
      TotalSnoc(TxnsOf(rows, id, n), TxnOf(rows[n]), Refund);
    }
  }

  lemma {:induction false} ListedHasTxns(rows: seq<Row>, id: string, n: nat)
    requires n <= |rows|
    ensures id in BatchIds(rows, n) <==> TxnsOf(rows, id, n) != []
  {
    if n > 0 { ListedHasTxns(rows, id, n - 1); }
  }

  ghost predicate Gathered(rows: seq<Row>, order: seq<string>, batches: map<string, Batch>, n: nat)
    requires n <= |rows|
  {
    && order == BatchIds(rows, n)
    && (forall id :: id in batches <==> id in order)
    && (forall id :: id in batches ==> batches[id] == Gathering(rows, id, n))
  }

  lemma GatheredNext(rows: seq<Row>, order: seq<string>, was: map<string, Batch>, now: map<string, Batch>, n: nat)
    requires n < |rows| && IsSettled(rows[n]) && Gathered(rows, order, was, n)
    requires rows[n].batchId in now && now == was[rows[n].batchId := now[rows[n].batchId]]
    requires now[rows[n].batchId] == Gathering(rows, rows[n].batchId, n + 1)
    ensures Gathered(rows, if rows[n].batchId in order then order else order + [rows[n].batchId], now, n + 1)
  {
    forall id | id in now ensures now[id] == Gathering(rows, id, n + 1) { GatheringNext(rows, n, id); }
  }

  lemma GatheredSkip(rows: seq<Row>, order: seq<string>, batches: map<string, Batch>, n: nat)
    requires n < |rows| && !IsSettled(rows[n]) && Gathered(rows, order, batches, n)
    ensures Gathered(rows, order, batches, n + 1)
  {
    forall id | id in batches ensures batches[id] == Gathering(rows, id, n + 1) { GatheringNext(rows, n, id); }
  }

  /** A settled row added to its batch. */
  method AddRow(batch: Batch, row: Row) returns (more: Batch)
    requires IsSettled(row)
    ensures more == batch.(gross := batch.gross + Flag(TxnOf(row).kind == Sale, row.amount),
      refunds := batch.refunds + Flag(TxnOf(row).kind == Refund, row.amount), txns := batch.txns + [TxnOf(row)])
  {
    more := batch;
    if row.status.SettledSuccessfully? { more := more.(gross := more.gross + row.amount); }
    else { more := more.(refunds := more.refunds + row.amount); }
    more := more.(txns := more.txns + [TxnOf(row)]);
  }

  /** One settled row's turn in `group_batches`. */
  method GatherRow(ghost rows: seq<Row>, ghost n: nat, row: Row, order: seq<string>, byId: map<string, Batch>)
      returns (order': seq<string>, byId': map<string, Batch>)
    requires n < |rows| && rows[n] == row && IsSettled(row) && Gathered(rows, order, byId, n)
    ensures Gathered(rows, order', byId', n + 1)
  {
    ListedHasTxns(rows, row.batchId, n);
    GatheringNext(rows, n, row.batchId);
    var batch := if row.batchId in byId then byId[row.batchId] else Batch(row.batchId, row.date, 0, 0, 0, [], None);
    batch := AddRow(batch, row);
    byId' := byId[row.batchId := batch];
    GatheredNext(rows, order, byId, byId', n);
    order' := if row.batchId in order then order else order + [row.batchId];
  }

  /** `group_batches`. */
  method GroupBatches(rows: seq<Row>) returns (batches: seq<Batch>)
    ensures Groups(rows, batches)
  {
    var order: seq<string> := [];
    var byId: map<string, Batch> := map[];
    for n := 0 to |rows|
      invariant Gathered(rows, order, byId, n)
    {
      if IsSettled(rows[n]) {
        order, byId := GatherRow(rows, n, rows[n], order, byId);
      } else {
        GatheredSkip(rows, order, byId, n);
      }
    }
    batches := NetBatches(rows, order, byId);
  }

  /** The closing loop: each batch's net, in first-seen order. */
  method NetBatches(ghost rows: seq<Row>, order: seq<string>, byId: map<string, Batch>) returns (batches: seq<Batch>)
    requires Gathered(rows, order, byId, |rows|)
    ensures Groups(rows, batches)
  {
    batches := [];
    for i := 0 to |order|
      invariant |batches| == i && forall j :: 0 <= j < i ==> batches[j] == BatchOf(rows, order[j])
    {
      assert order[i] in order;
      var batch := byId[order[i]];
      batches := batches + [batch.(net := batch.gross - batch.refunds)];
    }
  }

  // ---- The rows that count ----

  predicate IsOf(row: Row, id: string) {
    row.batchId == id && (row.status == SettledSuccessfully || row.status == RefundSettledSuccessfully)
  }

  /** The settled rows of a batch among the first `n`. */
  function RowsOf(rows: seq<Row>, id: string, n: nat): (s: seq<Row>)
    requires n <= |rows|
    ensures forall m :: 0 <= m < |s| ==> s[m] in rows[..n] && IsOf(s[m], id)
  {
    if n == 0 then []
    else RowsOf(rows, id, n - 1) + (if IsOf(rows[n - 1], id) then [rows[n - 1]] else [])
  }

  /** What the rows of a batch with one status come to. */
  function AmountOf(rows: seq<Row>, id: string, status: Status, n: nat): int
    requires n <= |rows|
  {
    if n == 0 then 0
    else
      AmountOf(rows, id, status, n - 1) +
      (if rows[n - 1].batchId == id && rows[n - 1].status == status then rows[n - 1].amount else 0)
  }

  /** A transaction is its row: money received for a settled sale, money given back for a settled refund. */
  predicate TellsRow(t: Txn, row: Row) {
    && t.id == row.txnId && t.invoice == row.invoice && t.customer == row.customer && t.amount == row.amount
    && (t.kind == Sale <==> row.status == SettledSuccessfully)
    && (t.kind == Refund <==> row.status == RefundSettledSuccessfully)
  }

  predicate TellRows(txns: seq<Txn>, rows: seq<Row>) {
    |txns| == |rows| && forall m :: 0 <= m < |rows| ==> TellsRow(txns[m], rows[m])
  }

  lemma TellMore(txns: seq<Txn>, rows: seq<Row>, t: Txn, row: Row)
    requires TellRows(txns, rows) && TellsRow(t, row)
    ensures TellRows(txns + [t], rows + [row])
  {}

  lemma TxnsTellRows(rows: seq<Row>, id: string, n: nat)
    requires n <= |rows|
    ensures TellRows(TxnsOf(rows, id, n), RowsOf(rows, id, n))
  {
    for i := 0 to n
      invariant TellRows(TxnsOf(rows, id, i), RowsOf(rows, id, i))
    {
      if IsOf(rows[i], id) { TellMore(TxnsOf(rows, id, i), RowsOf(rows, id, i), TxnOf(rows[i]), rows[i]); }
    }
  }

  lemma {:induction false} TotalsOf(rows: seq<Row>, id: string, n: nat)
    requires n <= |rows|
    ensures Total(TxnsOf(rows, id, n), Sale) == AmountOf(rows, id, SettledSuccessfully, n)
    ensures Total(TxnsOf(rows, id, n), Refund) == AmountOf(rows, id, RefundSettledSuccessfully, n)
  {
    if n > 0 {
      TotalsOf(rows, id, n - 1);
      if IsSettled(rows[n - 1]) && rows[n - 1].batchId == id {
        TotalSnoc(TxnsOf(rows, id, n - 1), TxnOf(rows[n - 1]), Sale);
        TotalSnoc(TxnsOf(rows, id, n - 1), TxnOf(rows[n - 1]), Refund);
      }
    }
  }

  /** The settled rows among the first `n`. */
  function SettledRows(rows: seq<Row>, n: nat): seq<Row>
    requires n <= |rows|
  {
    if n == 0 then []
    else if rows[n - 1].status == Voided || rows[n - 1].status == Declined then SettledRows(rows, n - 1)
    else SettledRows(rows, n - 1) + [rows[n - 1]]
  }

  // ---- No row is lost or counted twice ----

  function AllTxns(rows: seq<Row>, n: nat): seq<Txn>
    requires n <= |rows|
  {
    if n == 0 then []
    else if IsSettled(rows[n - 1]) then AllTxns(rows, n - 1) + [TxnOf(rows[n - 1])] else AllTxns(rows, n - 1)
  }

  /** The transactions of the first `m` of some batches, together. */
  function Pooled(rows: seq<Row>, ids: seq<string>, n: nat, m: nat): multiset<Txn>
    requires n <= |rows| && m <= |ids|
  {
    if m == 0 then multiset{} else Pooled(rows, ids, n, m - 1) + multiset(TxnsOf(rows, ids[m - 1], n))
  }

  /** What a row adds to a batch. */
  function One(row: Row, id: string): multiset<Txn> {
    if IsSettled(row) && row.batchId == id then multiset{TxnOf(row)} else multiset{}
  }

  lemma TxnsNext(rows: seq<Row>, id: string, n: nat)
    requires 0 < n <= |rows|
    ensures multiset(TxnsOf(rows, id, n)) == multiset(TxnsOf(rows, id, n - 1)) + One(rows[n - 1], id)
  {}

  lemma OnceAmong(ids: seq<string>, row: Row, m: nat)
    requires 0 < m <= |ids| && NoRepeats(ids)
    ensures Added(row, ids, m) == Added(row, ids, m - 1) + One(row, ids[m - 1])
  {
    assert ids[..m] == ids[..m - 1] + [ids[m - 1]];
  }

  /** What a row adds to the first `m` batches together. */
  function Added(row: Row, ids: seq<string>, m: nat): multiset<Txn>
    requires m <= |ids|
  {
    if IsSettled(row) && row.batchId in ids[..m] then multiset{TxnOf(row)} else multiset{}
  }

  lemma PooledStep(rows: seq<Row>, ids: seq<string>, n: nat, m: nat)
    requires 0 < n <= |rows| && 0 < m <= |ids| && NoRepeats(ids)
    requires Pooled(rows, ids, n, m - 1) == Pooled(rows, ids, n - 1, m - 1) + Added(rows[n - 1], ids, m - 1)
    ensures Pooled(rows, ids, n, m) == Pooled(rows, ids, n - 1, m) + Added(rows[n - 1], ids, m)
  {
    TxnsNext(rows, ids[m - 1], n);
    OnceAmong(ids, rows[n - 1], m);
  }

  lemma {:induction false} PooledNext(rows: seq<Row>, ids: seq<string>, n: nat, m: nat)
    requires 0 < n <= |rows| && m <= |ids| && NoRepeats(ids)
    ensures Pooled(rows, ids, n, m) == Pooled(rows, ids, n - 1, m) + Added(rows[n - 1], ids, m)
    decreases m
  {
    if m > 0 {
      PooledNext(rows, ids, n, m - 1);
      PooledStep(rows, ids, n, m);
    }
  }

  lemma {:induction false} PooledNone(rows: seq<Row>, ids: seq<string>, m: nat)
    requires m <= |ids|
    ensures Pooled(rows, ids, 0, m) == multiset{}
  {
    if m > 0 { PooledNone(rows, ids, m - 1); }
  }

  /** The batches listed hold every settled row. */
  predicate ListsAll(rows: seq<Row>, ids: seq<string>, n: nat)
    requires n <= |rows|
  {
    forall i :: 0 <= i < n && IsSettled(rows[i]) ==> rows[i].batchId in ids
  }

  predicate NoRepeats(ids: seq<string>) { forall i, j :: 0 <= i < j < |ids| ==> ids[i] != ids[j] }

  lemma PooledOneMore(rows: seq<Row>, ids: seq<string>, n: nat)
    requires 0 < n <= |rows| && NoRepeats(ids) && (IsSettled(rows[n - 1]) ==> rows[n - 1].batchId in ids)
    requires Pooled(rows, ids, n - 1, |ids|) == multiset(AllTxns(rows, n - 1))
    ensures Pooled(rows, ids, n, |ids|) == multiset(AllTxns(rows, n))
  {
    PooledNext(rows, ids, n, |ids|);
    AddedToAll(rows[n - 1], ids);
    AllTxnsNext(rows, n);
  }

  lemma PooledIsAll(rows: seq<Row>, ids: seq<string>, n: nat)
    requires n <= |rows| && NoRepeats(ids) && ListsAll(rows, ids, n)
    ensures Pooled(rows, ids, n, |ids|) == multiset(AllTxns(rows, n))
  {
    PooledNone(rows, ids, |ids|);
    for i := 0 to n
      invariant Pooled(rows, ids, i, |ids|) == multiset(AllTxns(rows, i))
    {
      PooledOneMore(rows, ids, i + 1);
    }
  }

  lemma AllTxnsTell(rows: seq<Row>, n: nat)
    requires n <= |rows|
    ensures TellRows(AllTxns(rows, n), SettledRows(rows, n))
  {
    for i := 0 to n
      invariant TellRows(AllTxns(rows, i), SettledRows(rows, i))
    {
      if IsSettled(rows[i]) { TellMore(AllTxns(rows, i), SettledRows(rows, i), TxnOf(rows[i]), rows[i]); }
    }
  }

  /** Together the batches hold exactly the settled rows, each once: the sales as sales, the refunds as refunds. */
  lemma GroupsPartition(rows: seq<Row>, ids: seq<string>, n: nat)
    requires n <= |rows| && NoRepeats(ids) && ListsAll(rows, ids, n)
    ensures Pooled(rows, ids, n, |ids|) == multiset(AllTxns(rows, n))
    ensures TellRows(AllTxns(rows, n), SettledRows(rows, n))
  {
    PooledIsAll(rows, ids, n);
    AllTxnsTell(rows, n);
  }

  lemma AllTxnsNext(rows: seq<Row>, n: nat)
    requires 0 < n <= |rows|
    ensures multiset(AllTxns(rows, n))
      == multiset(AllTxns(rows, n - 1)) + (if IsSettled(rows[n - 1]) then multiset{TxnOf(rows[n - 1])} else multiset{})
  {}

  /** The batches listed hold every settled row, so a row adds itself once. */
  lemma AddedToAll(row: Row, ids: seq<string>)
    requires IsSettled(row) ==> row.batchId in ids
    ensures Added(row, ids, |ids|) == if IsSettled(row) then multiset{TxnOf(row)} else multiset{}
  {
    assert ids[..|ids|] == ids;
  }

  // ---- Documents ----

  datatype Resolved = Resolved(id: string, kind: DocKind, open: int)

  type Resolver = string -> Option<Resolved>

  function TargetOf(t: Txn, resolve: Resolver): Option<Resolved> {
    if t.kind.Sale? && t.invoice.Some? then resolve(t.invoice.value) else None
  }

  function Max(x: int, y: int): int { if x >= y then x else y }

  function Min(x: int, y: int): int { if x <= y then x else y }

  /** What is still open on the target of a sale, given the sales already dealt with. */
  function OpenFor(remaining: map<string, int>, target: Resolved): int {
    if target.id in remaining then remaining[target.id] else Max(target.open, 0)
  }

  /** The running balances after the transactions in `done`. */
  function Remaining(done: seq<Txn>, resolve: Resolver): map<string, int> {
    if done == [] then map[]
    else
      var was, t := Remaining(done[..|done| - 1], resolve), done[|done| - 1];
      match TargetOf(t, resolve)
      case None => was
      case Some(target) => was[target.id := OpenFor(was, target) - Min(t.amount, OpenFor(was, target))]
  }

  /** What a sale applies to its target after the transactions in `done`. */
  function AppliedBy(done: seq<Txn>, t: Txn, resolve: Resolver): int {
    match TargetOf(t, resolve)
    case None => 0
    case Some(target) => Min(t.amount, OpenFor(Remaining(done, resolve), target))
  }

  function CustomerRef(id: Option<string>): Option<Contact> {
    if id.Some? then Some(Contact(Customer, id.value)) else None
  }

  function TxnDocId(id: string): string { "authnet:txn:" + id }

  function PaymentOf(date: int, done: seq<Txn>, t: Txn, resolve: Resolver): Document {
    var applied := AppliedBy(done, t, resolve);
    Document(TxnDocId(t.id), Payment, None, date, None, CustomerRef(t.customer), [], None,
      if applied == 0 then []
      else [Application(TargetOf(t, resolve).value.id, TargetOf(t, resolve).value.kind, applied)],
      t.amount - applied, false, None)
  }

  function RefundOf(date: int, t: Txn): Document {
    Document(TxnDocId(t.id), RefundReceipt, None, date, None, CustomerRef(t.customer), [DocLine(Item, t.amount)], None,
        [], 0, false, None)
  }

  function DocOf(date: int, done: seq<Txn>, t: Txn, resolve: Resolver): Document {
    if t.kind.Sale? then PaymentOf(date, done, t, resolve) else RefundOf(date, t)
  }

  /** The settlement's first line is the movement out of clearing, its second the fee if there is one. */
  function SettlementOf(batch: Batch): Document {
    var fee := if batch.fee.Some? && batch.fee.value != 0 then [DocLine(AccountLine, batch.fee.value)] else [];
    Document("authnet:" + batch.id, Settlement, None, batch.settledOn, None, None, [DocLine(AccountLine, batch.net)] +
        fee,
      None, [], 0, false, None)
  }

  /** The documents of the first `n` transactions of a batch that starts after `done`. */
  function TxnDocs(batch: Batch, done: seq<Txn>, n: nat, resolve: Resolver): seq<Document>
    requires n <= |batch.txns|
  {
    if n == 0 then []
    else
      TxnDocs(batch, done, n - 1, resolve) +
      [DocOf(batch.settledOn, done + batch.txns[..n - 1], batch.txns[n - 1], resolve)]
  }

  function AllOf(batches: seq<Batch>, b: nat): seq<Txn>
    requires b <= |batches|
  {
    if b == 0 then [] else AllOf(batches, b - 1) + batches[b - 1].txns
  }

  function DocsOf(batches: seq<Batch>, b: nat, resolve: Resolver): seq<Document>
    requires b <= |batches|
  {
    if b == 0 then []
    else
      DocsOf(batches, b - 1, resolve) + [SettlementOf(batches[b - 1])] +
      TxnDocs(batches[b - 1], AllOf(batches, b - 1), |batches[b - 1].txns|, resolve)
  }

  /** `payment_document`. */
  method PaymentDocument(date: int, t: Txn, resolve: Resolver, remaining: map<string, int>, ghost done: seq<Txn>)
    returns (doc: Document, remaining': map<string, int>)
    requires t.kind.Sale? && remaining == Remaining(done, resolve)
    ensures doc == PaymentOf(date, done, t, resolve) && remaining' == Remaining(done + [t], resolve)
  {
    assert (done + [t])[..|done|] == done;
    remaining' := remaining;
    var applications: seq<Application>, unapplied := [], t.amount;
    var target := if t.invoice.Some? then resolve(t.invoice.value) else None;
    if target.Some? {
      var open := if target.value.id in remaining then remaining[target.value.id] else Max(target.value.open, 0);
      var applied := Min(t.amount, open);
      remaining' := remaining[target.value.id := open - applied];
      unapplied := t.amount - applied;
      if applied != 0 { applications := [Application(target.value.id, target.value.kind, applied)]; }
    }
    doc := Document(TxnDocId(t.id), Payment, None, date, None, CustomerRef(t.customer), [], None, applications,
        unapplied, false, None);
  }

  /** The transactions of one batch. */
  method BatchDocuments(batch: Batch, resolve: Resolver, remaining: map<string, int>, ghost done: seq<Txn>)
    returns (docs: seq<Document>, remaining': map<string, int>)
    requires remaining == Remaining(done, resolve)
    ensures docs == TxnDocs(batch, done, |batch.txns|, resolve) && remaining' == Remaining(done + batch.txns, resolve)
  {
    docs, remaining' := [], remaining;
    assert done + batch.txns[..0] == done;
    for i := 0 to |batch.txns|
      invariant docs == TxnDocs(batch, done, i, resolve) && remaining' == Remaining(done + batch.txns[..i], resolve)
    {
      var t := batch.txns[i];
      ghost var now := done + batch.txns[..i];
      assert now + [t] == done + batch.txns[..i + 1];
      var doc;
      if t.kind.Sale? {
        doc, remaining' := PaymentDocument(batch.settledOn, t, resolve, remaining', now);
      } else {
        doc := RefundOf(batch.settledOn, t);
        assert (now + [t])[..|now|] == now;
      }
      docs := docs + [doc];
    }
    assert batch.txns[..|batch.txns|] == batch.txns;
  }

  /** `settlement_documents`. */
  method SettlementDocuments(batches: seq<Batch>, resolve: Resolver) returns (docs: seq<Document>)
    ensures docs == DocsOf(batches, |batches|, resolve)
  {
    docs := [];
    var remaining: map<string, int> := map[];
    for b := 0 to |batches|
      invariant docs == DocsOf(batches, b, resolve) && remaining == Remaining(AllOf(batches, b), resolve)
    {
      var more;
      more, remaining := BatchDocuments(batches[b], resolve, remaining, AllOf(batches, b));
      docs := docs + [SettlementOf(batches[b])] + more;
    }
  }

  // ---- The shared balance ----

  /** Two numbers that come to one document find the same balance on it. */
  ghost predicate Consistent(resolve: Resolver) {
    forall m, n :: resolve(m).Some? && resolve(n).Some? && resolve(m).value.id == resolve(n).value.id ==>
      resolve(m).value.open == resolve(n).value.open
  }

  predicate Names(t: Txn, id: string, resolve: Resolver) {
    TargetOf(t, resolve).Some? && TargetOf(t, resolve).value.id == id
  }

  /** The sales naming an invoice. */
  function Named(txns: seq<Txn>, id: string, resolve: Resolver): int {
    if txns == [] then 0
    else Named(txns[..|txns| - 1], id, resolve) + Flag(Names(txns[|txns| - 1], id, resolve), txns[|txns| - 1].amount)
  }

  /** What they apply to it. */
  function AppliedIn(txns: seq<Txn>, id: string, resolve: Resolver): int {
    if txns == [] then 0
    else
      var done, t := txns[..|txns| - 1], txns[|txns| - 1];
      AppliedIn(done, id, resolve) + Flag(Names(t, id, resolve), AppliedBy(done, t, resolve))
  }

  ghost predicate SalesNonnegative(txns: seq<Txn>) {
    forall i :: 0 <= i < |txns| && txns[i].kind.Sale? ==> txns[i].amount >= 0
  }

  /** An invoice is drawn down by exactly what its sales come to, as far as it is open. */
  lemma {:induction false} DrawnDown(txns: seq<Txn>, id: string, open: int, resolve: Resolver)
    requires SalesNonnegative(txns)
    requires forall n :: resolve(n).Some? && resolve(n).value.id == id ==> resolve(n).value.open == open
    ensures AppliedIn(txns, id, resolve) == Min(Max(open, 0), Named(txns, id, resolve)) && Named(txns, id, resolve) >= 0
    ensures id in Remaining(txns, resolve) ==>
        Remaining(txns, resolve)[id] == Max(open, 0) - AppliedIn(txns, id, resolve)
    ensures id !in Remaining(txns, resolve) ==> Named(txns, id, resolve) == 0
  {
    if txns != [] { DrawnDown(txns[..|txns| - 1], id, open, resolve); }
  }

  /** Every sale splits into what it applies and what it parks; a refund carries its amount. */
  lemma DocSplits(date: int, done: seq<Txn>, t: Txn, resolve: Resolver)
    ensures var doc := DocOf(date, done, t, resolve);
      if t.kind.Sale? then RecordedAll(doc.applications, |doc.applications|) + doc.unapplied == t.amount
      else DocumentTotal(doc) == t.amount
  {
    var doc := DocOf(date, done, t, resolve);
    if t.kind.Sale? {
      if doc.applications != [] {
        assert RecordedAll(doc.applications, 0) == 0;
      }
    } else {
      assert LinesWorth(doc.lines, 0) == 0;
    }
  }

  lemma DocRecords(date: int, done: seq<Txn>, t: Txn, id: string, resolve: Resolver)
    ensures var apps := DocOf(date, done, t, resolve).applications;
      Recorded(apps, id, |apps|) == Flag(Names(t, id, resolve), AppliedBy(done, t, resolve))
  {
    var apps := DocOf(date, done, t, resolve).applications;
    if apps != [] { assert Recorded(apps, id, 0) == 0; }
  }

  /** What documents record against an invoice. */
  function RecordedIn(docs: seq<Document>, id: string): int {
    if docs == [] then 0
    else
      RecordedIn(docs[..|docs| - 1], id) +
      Recorded(docs[|docs| - 1].applications, id, |docs[|docs| - 1].applications|)
  }

  lemma RecordedSnoc(docs: seq<Document>, doc: Document, id: string)
    ensures RecordedIn(docs + [doc], id) == RecordedIn(docs, id) + Recorded(doc.applications, id, |doc.applications|)
  {
    assert (docs + [doc])[..|docs|] == docs;
  }

  lemma {:induction false} RecordedAppend(docs: seq<Document>, more: seq<Document>, id: string)
    ensures RecordedIn(docs + more, id) == RecordedIn(docs, id) + RecordedIn(more, id)
  {
    if more == [] {
      assert docs + more == docs;
    } else {
      RecordedAppend(docs, more[..|more| - 1], id);
      assert docs + more == (docs + more[..|more| - 1]) + [more[|more| - 1]];
      RecordedSnoc(docs + more[..|more| - 1], more[|more| - 1], id);
    }
  }

  lemma AppliedSnoc(done: seq<Txn>, t: Txn, id: string, resolve: Resolver)
    ensures AppliedIn(done + [t], id, resolve) ==
        AppliedIn(done, id, resolve) + Flag(Names(t, id, resolve), AppliedBy(done, t, resolve))
  {
    assert (done + [t])[..|done|] == done;
  }

  /** One more transaction's document records what the transaction applies. */
  lemma RecordsNext(docs: seq<Document>, date: int, now: seq<Txn>, t: Txn, id: string, resolve: Resolver, base: int)
    requires RecordedIn(docs, id) == AppliedIn(now, id, resolve) - base
    ensures RecordedIn(docs + [DocOf(date, now, t, resolve)], id) == AppliedIn(now + [t], id, resolve) - base
  {
    AppliedSnoc(now, t, id, resolve);
    DocRecords(date, now, t, id, resolve);
    RecordedSnoc(docs, DocOf(date, now, t, resolve), id);
  }

  lemma {:induction false} BatchRecords(batch: Batch, done: seq<Txn>, n: nat, id: string, resolve: Resolver)
    requires n <= |batch.txns|
    ensures RecordedIn(TxnDocs(batch, done, n, resolve), id)
         == AppliedIn(done + batch.txns[..n], id, resolve) - AppliedIn(done, id, resolve)
    decreases n
  {
    if n == 0 {
      assert done + batch.txns[..0] == done;
    } else {
      BatchRecords(batch, done, n - 1, id, resolve);
      var now, t := done + batch.txns[..n - 1], batch.txns[n - 1];
      RecordsNext(TxnDocs(batch, done, n - 1, resolve), batch.settledOn, now, t, id, resolve,
          AppliedIn(done, id, resolve));
      TakeNext(done, batch.txns, n);
    }
  }

  lemma TakeNext(done: seq<Txn>, txns: seq<Txn>, n: nat)
    requires 0 < n <= |txns|
    ensures done + txns[..n] == (done + txns[..n - 1]) + [txns[n - 1]]
  {}

  lemma DocsRecord(batches: seq<Batch>, b: nat, id: string, resolve: Resolver)
    requires b <= |batches|
    ensures RecordedIn(DocsOf(batches, b, resolve), id) == AppliedIn(AllOf(batches, b), id, resolve)
  {
    for i := 0 to b
      invariant RecordedIn(DocsOf(batches, i, resolve), id) == AppliedIn(AllOf(batches, i), id, resolve)
    {
      DocsRecordNext(batches, i + 1, id, resolve);
    }
  }

  lemma DocsRecordNext(batches: seq<Batch>, b: nat, id: string, resolve: Resolver)
    requires 0 < b <= |batches|
    requires RecordedIn(DocsOf(batches, b - 1, resolve), id) == AppliedIn(AllOf(batches, b - 1), id, resolve)
    ensures RecordedIn(DocsOf(batches, b, resolve), id) == AppliedIn(AllOf(batches, b), id, resolve)
  {
    var batch, done := batches[b - 1], AllOf(batches, b - 1);
    BatchRecords(batch, done, |batch.txns|, id, resolve);
    assert batch.txns[..|batch.txns|] == batch.txns;
    RecordedSnoc(DocsOf(batches, b - 1, resolve), SettlementOf(batch), id);
    RecordedAppend(DocsOf(batches, b - 1, resolve) + [SettlementOf(batch)],
                   TxnDocs(batch, done, |batch.txns|, resolve), id);
  }

  /** Across all the batches of one call an invoice is paid exactly what its sales come to, as far
      as it was open, even when several numbers come to it. */
  lemma InvoicePaid(batches: seq<Batch>, id: string, open: int, resolve: Resolver)
    requires SalesNonnegative(AllOf(batches, |batches|))
    requires Consistent(resolve) && exists n ::
        resolve(n).Some? && resolve(n).value.id == id && resolve(n).value.open == open
    ensures RecordedIn(DocsOf(batches, |batches|, resolve), id)
         == Min(Max(open, 0), Named(AllOf(batches, |batches|), id, resolve))
  {
    DocsRecord(batches, |batches|, id, resolve);
    DrawnDown(AllOf(batches, |batches|), id, open, resolve);
  }

  // ---- Clearing ----

  /** What a document moves through the clearing account (1160). */
  function Clearing(doc: Document): int {
    match doc.kind
    case Payment => RecordedAll(doc.applications, |doc.applications|) + doc.unapplied
    case RefundReceipt => -DocumentTotal(doc)
    case Settlement => if doc.lines == [] then 0 else -doc.lines[0].amount
    case _ => 0
  }

  function ClearingOf(docs: seq<Document>): int {
    if docs == [] then 0 else ClearingOf(docs[..|docs| - 1]) + Clearing(docs[|docs| - 1])
  }

  lemma {:induction false} TxnsClear(batch: Batch, done: seq<Txn>, n: nat, resolve: Resolver)
    requires n <= |batch.txns|
    ensures ClearingOf(TxnDocs(batch, done, n, resolve)) ==
        TotalOf(batch.txns, Sale, n) - TotalOf(batch.txns, Refund, n)
    decreases n
  {
    if n > 0 {
      TxnsClear(batch, done, n - 1, resolve);
      var now, t := done + batch.txns[..n - 1], batch.txns[n - 1];
      DocSplits(batch.settledOn, now, t, resolve);
      var docs := TxnDocs(batch, done, n - 1, resolve);
      assert (docs + [DocOf(batch.settledOn, now, t, resolve)])[..|docs|] == docs;
    }
  }

  lemma SettlementMoves(batch: Batch)
    ensures Clearing(SettlementOf(batch)) == -batch.net
  {}

  /** The documents of a batch leave the clearing account where they found it exactly when its
      stated net is its sales less its refunds. */
  lemma BatchClears(batch: Batch, done: seq<Txn>, resolve: Resolver)
    ensures Clearing(SettlementOf(batch)) + ClearingOf(TxnDocs(batch, done, |batch.txns|, resolve)) == 0
       <==> batch.net == Total(batch.txns, Sale) - Total(batch.txns, Refund)
  {
    SettlementMoves(batch);
    TxnsClear(batch, done, |batch.txns|, resolve);
  }

  /** Every batch that grouping makes does: its settlement takes out the settled sales less the settled refunds of its
      rows, and its other documents bring just that in. */
  lemma GroupedClears(rows: seq<Row>, batches: seq<Batch>, i: nat, done: seq<Txn>, resolve: Resolver)
    requires Groups(rows, batches) && i < |batches|
    ensures var id := batches[i].id;
            var moved := AmountOf(rows, id, SettledSuccessfully, |rows|) -
                         AmountOf(rows, id, RefundSettledSuccessfully, |rows|);
            && Clearing(SettlementOf(batches[i])) == -moved
            && ClearingOf(TxnDocs(batches[i], done, |batches[i].txns|, resolve)) == moved
  {
    TotalsOf(rows, batches[i].id, |rows|);
    SettlementMoves(batches[i]);
    TxnsClear(batches[i], done, |batches[i].txns|, resolve);
  }

  // ---- Importing a file ----

  function BatchDocId(id: string): string { "authnet:" + id }

  /** The transactions among the first `n` that are not saved yet. */
  function Unsaved(txns: seq<Txn>, saved: set<string>, n: nat): seq<Txn>
    requires n <= |txns|
  {
    if n == 0 then []
    else if TxnDocId(txns[n - 1].id) in saved then Unsaved(txns, saved, n - 1)
    else Unsaved(txns, saved, n - 1) + [txns[n - 1]]
  }

  lemma {:induction false} UnsavedAre(txns: seq<Txn>, saved: set<string>, n: nat)
    requires n <= |txns|
    ensures forall t :: t in Unsaved(txns, saved, n) <==> t in txns[..n] && TxnDocId(t.id) !in saved
    decreases n
  {
    if n > 0 {
      UnsavedAre(txns, saved, n - 1);
      assert txns[..n] == txns[..n - 1] + [txns[n - 1]];
    }
  }

  method KeepUnsaved(txns: seq<Txn>, saved: set<string>) returns (kept: seq<Txn>)
    ensures kept == Unsaved(txns, saved, |txns|)
  {
    kept := [];
    for i := 0 to |txns|
      invariant kept == Unsaved(txns, saved, i)
    {
      if TxnDocId(txns[i].id) !in saved { kept := kept + [txns[i]]; }
    }
  }

  /** The batches with the saved transactions drained out. */
  ghost predicate Drained(batches: seq<Batch>, saved: set<string>, now: seq<Batch>, n: nat)
    requires n <= |batches|
  {
    |now| == n && forall b :: 0 <= b < n ==> DrainedFrom(batches[b], saved, now[b])
  }

  predicate DrainedFrom(batch: Batch, saved: set<string>, now: Batch) {
    now == batch.(txns := Unsaved(batch.txns, saved, |batch.txns|))
  }

  function IdsOf(docs: seq<Document>): set<string> { set doc | doc in docs :: doc.id }

  function TxnIds(txns: seq<Txn>): set<string> { set t | t in txns :: TxnDocId(t.id) }

  /** The ids of the documents of the first `b` batches. */
  function DocIds(batches: seq<Batch>, b: nat): set<string>
    requires b <= |batches|
  {
    if b == 0 then {} else DocIds(batches, b - 1) + {BatchDocId(batches[b - 1].id)} + TxnIds(batches[b - 1].txns)
  }

  lemma IdsSnoc(docs: seq<Document>, doc: Document)
    ensures IdsOf(docs + [doc]) == IdsOf(docs) + {doc.id}
  {}

  lemma {:induction false} TxnDocIds(batch: Batch, done: seq<Txn>, n: nat, resolve: Resolver)
    requires n <= |batch.txns|
    ensures IdsOf(TxnDocs(batch, done, n, resolve)) == TxnIds(batch.txns[..n])
    decreases n
  {
    if n > 0 {
      TxnDocIds(batch, done, n - 1, resolve);
      var now, t := done + batch.txns[..n - 1], batch.txns[n - 1];
      IdsSnoc(TxnDocs(batch, done, n - 1, resolve), DocOf(batch.settledOn, now, t, resolve));
      DocIdOf(batch.settledOn, now, t, resolve);
      TxnIdsSnoc(batch.txns[..n - 1], t);
      assert batch.txns[..n] == batch.txns[..n - 1] + [t];
    }
  }

  lemma DocIdOf(date: int, done: seq<Txn>, t: Txn, resolve: Resolver)
    ensures DocOf(date, done, t, resolve).id == TxnDocId(t.id)
  {}

  lemma TxnIdsSnoc(txns: seq<Txn>, t: Txn)
    ensures TxnIds(txns + [t]) == TxnIds(txns) + {TxnDocId(t.id)}
  {}

  lemma IdsAppend(docs: seq<Document>, more: seq<Document>)
    ensures IdsOf(docs + more) == IdsOf(docs) + IdsOf(more)
  {}

  lemma IdsOfThree(head: seq<Document>, doc: Document, tail: seq<Document>)
    ensures IdsOf(head + [doc] + tail) == IdsOf(head) + {doc.id} + IdsOf(tail)
  {
    IdsSnoc(head, doc);
    IdsAppend(head + [doc], tail);
  }

  lemma DocIdsNext(batches: seq<Batch>, b: nat, resolve: Resolver)
    requires 0 < b <= |batches| && IdsOf(DocsOf(batches, b - 1, resolve)) == DocIds(batches, b - 1)
    ensures IdsOf(DocsOf(batches, b, resolve)) == DocIds(batches, b)
  {
    var batch, done := batches[b - 1], AllOf(batches, b - 1);
    WholeBatchIds(batch, done, resolve);
    IdsOfThree(DocsOf(batches, b - 1, resolve), SettlementOf(batch), TxnDocs(batch, done, |batch.txns|, resolve));
  }

  lemma DocIdsAre(batches: seq<Batch>, b: nat, resolve: Resolver)
    requires b <= |batches|
    ensures IdsOf(DocsOf(batches, b, resolve)) == DocIds(batches, b)
  {
    NoDocIds(batches, resolve);
    for i := 0 to b
      invariant IdsOf(DocsOf(batches, i, resolve)) == DocIds(batches, i)
    {
      DocIdsNext(batches, i + 1, resolve);
    }
  }

  lemma NoDocIds(batches: seq<Batch>, resolve: Resolver)
    ensures IdsOf(DocsOf(batches, 0, resolve)) == DocIds(batches, 0)
  {
    assert DocsOf(batches, 0, resolve) == [] && IdsOf([]) == {};
  }

  lemma WholeBatchIds(batch: Batch, done: seq<Txn>, resolve: Resolver)
    ensures IdsOf(TxnDocs(batch, done, |batch.txns|, resolve)) == TxnIds(batch.txns)
    ensures SettlementOf(batch).id == BatchDocId(batch.id)
  {
    TxnDocIds(batch, done, |batch.txns|, resolve);
    assert batch.txns[..|batch.txns|] == batch.txns;
  }

  /** Draining takes out saved ids only. */
  lemma {:induction false} DrainedIds(batches: seq<Batch>, saved: set<string>, now: seq<Batch>, b: nat)
    requires Drained(batches, saved, now, |batches|) && b <= |batches|
    ensures DocIds(now, b) <= DocIds(batches, b) <= DocIds(now, b) + saved
    decreases b
  {
    if b > 0 {
      DrainedIds(batches, saved, now, b - 1);
      DrainedTxns(batches[b - 1].txns, saved, |batches[b - 1].txns|);
      assert batches[b - 1].txns[..|batches[b - 1].txns|] == batches[b - 1].txns;
    }
  }

  lemma DrainedTxns(txns: seq<Txn>, saved: set<string>, n: nat)
    requires n <= |txns|
    ensures TxnIds(Unsaved(txns, saved, n)) <= TxnIds(txns[..n]) <= TxnIds(Unsaved(txns, saved, n)) + saved
  {
    UnsavedAre(txns, saved, n);
  }

  // ---- What an import saves ----

  /** Saved documents by id. */
  type Store = map<string, Document>

  /** The store after the first `n` documents: an id that is taken is skipped, and so is a document refused. */
  function SavedWith(saved: Store, docs: seq<Document>, n: nat, accepts: Document -> bool): Store
    requires n <= |docs|
  {
    if n == 0 then saved
    else
      var was := SavedWith(saved, docs, n - 1, accepts);
      if docs[n - 1].id in was || !accepts(docs[n - 1]) then was else was[docs[n - 1].id := docs[n - 1]]
  }

  /** The documents among the first `n` that are saved. */
  function NewDocs(saved: Store, docs: seq<Document>, n: nat, accepts: Document -> bool): seq<Document>
    requires n <= |docs|
  {
    if n == 0 then []
    else if docs[n - 1].id in SavedWith(saved, docs, n - 1, accepts) || !accepts(docs[n - 1]) then
      NewDocs(saved, docs, n - 1, accepts)
    else NewDocs(saved, docs, n - 1, accepts) + [docs[n - 1]]
  }

  /** The ones that are not. */
  function PassedOver(saved: Store, docs: seq<Document>, n: nat, accepts: Document -> bool): seq<Document>
    requires n <= |docs|
  {
    if n == 0 then []
    else if docs[n - 1].id in SavedWith(saved, docs, n - 1, accepts) || !accepts(docs[n - 1]) then
      PassedOver(saved, docs, n - 1, accepts) + [docs[n - 1]]
    else PassedOver(saved, docs, n - 1, accepts)
  }

  /** None of the first `n` documents is saved, refused or there twice. */
  ghost predicate AllFresh(saved: Store, docs: seq<Document>, n: nat, accepts: Document -> bool)
    requires n <= |docs|
  {
    && (forall i :: 0 <= i < n ==> docs[i].id !in saved && accepts(docs[i]))
    && (forall i, j :: 0 <= i < j < n ==> docs[i].id != docs[j].id)
  }

  /** What is saved stays, and everything new is saved under its own id, as it was built. */
  lemma {:induction false} SavedKeeps(saved: Store, docs: seq<Document>, n: nat, accepts: Document -> bool)
    requires n <= |docs|
    ensures var now := SavedWith(saved, docs, n, accepts);
      && (forall id :: id in saved ==> id in now && now[id] == saved[id])
      && (forall id :: id in now && id !in saved ==>
            now[id].id == id && accepts(now[id]) && now[id] in NewDocs(saved, docs, n, accepts))
      && (forall doc :: doc in NewDocs(saved, docs, n, accepts) ==>
            doc.id !in saved && doc.id in now && now[doc.id] == doc)
    decreases n
  {
    if n > 0 { SavedKeeps(saved, docs, n - 1, accepts); }
  }

  lemma {:induction false} SavedIds(saved: Store, docs: seq<Document>, n: nat, accepts: Document -> bool)
    requires n <= |docs|
    ensures forall id :: id in SavedWith(saved, docs, n, accepts) ==> id in saved || id in IdsOf(docs[..n])
    decreases n
  {
    if n > 0 {
      SavedIds(saved, docs, n - 1, accepts);
      assert docs[..n] == docs[..n - 1] + [docs[n - 1]];
      IdsSnoc(docs[..n - 1], docs[n - 1]);
    }
  }

  lemma {:induction false} AcceptedSaved(saved: Store, docs: seq<Document>, n: nat, accepts: Document -> bool)
    requires n <= |docs|
    ensures forall id :: id in saved ==> id in SavedWith(saved, docs, n, accepts)
    ensures forall i :: 0 <= i < n && accepts(docs[i]) ==> docs[i].id in SavedWith(saved, docs, n, accepts)
    decreases n
  {
    if n > 0 { AcceptedSaved(saved, docs, n - 1, accepts); }
  }

  /** Documents whose ids are all taken change nothing. */
  lemma {:induction false} NothingNew(saved: Store, docs: seq<Document>, n: nat, accepts: Document -> bool)
    requires n <= |docs| && forall i :: 0 <= i < n ==> docs[i].id in saved
    ensures SavedWith(saved, docs, n, accepts) == saved && NewDocs(saved, docs, n, accepts) == []
    decreases n
  {
    if n > 0 { NothingNew(saved, docs, n - 1, accepts); }
  }

  lemma FreshIsNew(saved: Store, docs: seq<Document>, n: nat, accepts: Document -> bool)
    requires n <= |docs| && AllFresh(saved, docs, n, accepts)
    ensures NewDocs(saved, docs, n, accepts) == docs[..n]
  {
    for i := 0 to n
      invariant NewDocs(saved, docs, i, accepts) == docs[..i]
      invariant forall j :: i <= j < n ==> docs[j].id !in SavedWith(saved, docs, i, accepts)
    {
      TakenFresh(saved, docs, i, accepts);
      forall j | i + 1 <= j < n ensures docs[j].id !in SavedWith(saved, docs, i + 1, accepts) {
        assert docs[j].id != docs[i].id;
      }
    }
  }

  lemma TakenFresh(saved: Store, docs: seq<Document>, i: nat, accepts: Document -> bool)
    requires i < |docs| && docs[i].id !in SavedWith(saved, docs, i, accepts) && accepts(docs[i])
    requires NewDocs(saved, docs, i, accepts) == docs[..i]
    ensures NewDocs(saved, docs, i + 1, accepts) == docs[..i + 1]
    ensures SavedWith(saved, docs, i + 1, accepts) == SavedWith(saved, docs, i, accepts)[docs[i].id := docs[i]]
  {
    assert docs[..i + 1] == docs[..i] + [docs[i]];
  }

  lemma {:induction false} NewIsFresh(saved: Store, docs: seq<Document>, n: nat, accepts: Document -> bool)
    requires n <= |docs|
    ensures |NewDocs(saved, docs, n, accepts)| <= n
    ensures |NewDocs(saved, docs, n, accepts)| == n ==> AllFresh(saved, docs, n, accepts)
    decreases n
  {
    if n > 0 {
      NewIsFresh(saved, docs, n - 1, accepts);
      if |NewDocs(saved, docs, n, accepts)| == n { LastIsFresh(saved, docs, n, accepts); }
    }
  }

  lemma LastIsFresh(saved: Store, docs: seq<Document>, n: nat, accepts: Document -> bool)
    requires 0 < n <= |docs| && AllFresh(saved, docs, n - 1, accepts)
    requires docs[n - 1].id !in SavedWith(saved, docs, n - 1, accepts) && accepts(docs[n - 1])
    ensures AllFresh(saved, docs, n, accepts)
  {
    AcceptedSaved(saved, docs, n - 1, accepts);
  }

  /** All that was built is saved as it was built exactly when none of it was saved before, refused or there twice. */
  lemma AllSavedIff(saved: Store, docs: seq<Document>, accepts: Document -> bool)
    ensures NewDocs(saved, docs, |docs|, accepts) == docs <==> AllFresh(saved, docs, |docs|, accepts)
  {
    NewIsFresh(saved, docs, |docs|, accepts);
    if AllFresh(saved, docs, |docs|, accepts) {
      FreshIsNew(saved, docs, |docs|, accepts);
      assert docs[..|docs|] == docs;
    }
  }

  lemma ClearingSnoc(docs: seq<Document>, doc: Document)
    ensures ClearingOf(docs + [doc]) == ClearingOf(docs) + Clearing(doc)
  {
    assert (docs + [doc])[..|docs|] == docs;
  }

  lemma {:induction false} ClearingAppend(docs: seq<Document>, more: seq<Document>)
    ensures ClearingOf(docs + more) == ClearingOf(docs) + ClearingOf(more)
  {
    if more == [] {
      assert docs + more == docs;
    } else {
      ClearingAppend(docs, more[..|more| - 1]);
      assert docs + more == (docs + more[..|more| - 1]) + [more[|more| - 1]];
      ClearingSnoc(docs + more[..|more| - 1], more[|more| - 1]);
    }
  }

  lemma NewOrPassedNext(saved: Store, docs: seq<Document>, n: nat, accepts: Document -> bool)
    requires 0 < n <= |docs|
    requires ClearingOf(NewDocs(saved, docs, n - 1, accepts)) + ClearingOf(PassedOver(saved, docs, n - 1, accepts))
          == ClearingOf(docs[..n - 1])
    ensures ClearingOf(NewDocs(saved, docs, n, accepts)) + ClearingOf(PassedOver(saved, docs, n, accepts))
         == ClearingOf(docs[..n])
  {
    assert docs[..n] == docs[..n - 1] + [docs[n - 1]];
    ClearingSnoc(docs[..n - 1], docs[n - 1]);
    if docs[n - 1].id in SavedWith(saved, docs, n - 1, accepts) || !accepts(docs[n - 1]) {
      ClearingSnoc(PassedOver(saved, docs, n - 1, accepts), docs[n - 1]);
    } else {
      ClearingSnoc(NewDocs(saved, docs, n - 1, accepts), docs[n - 1]);
    }
  }

  lemma NewOrPassed(saved: Store, docs: seq<Document>, n: nat, accepts: Document -> bool)
    requires n <= |docs|
    ensures ClearingOf(NewDocs(saved, docs, n, accepts)) + ClearingOf(PassedOver(saved, docs, n, accepts))
         == ClearingOf(docs[..n])
  {
    for i := 0 to n
      invariant ClearingOf(NewDocs(saved, docs, i, accepts)) + ClearingOf(PassedOver(saved, docs, i, accepts))
             == ClearingOf(docs[..i])
    {
      NewOrPassedNext(saved, docs, i + 1, accepts);
    }
  }

  /** What a transaction moves into clearing. */
  function TxnMove(t: Txn): int { if t.kind.Sale? then t.amount else -t.amount }

  /** What the transactions of a batch that are saved already moved. */
  function DrainedTo(txns: seq<Txn>, saved: set<string>, n: nat): int
    requires n <= |txns|
  {
    if n == 0 then 0
    else DrainedTo(txns, saved, n - 1) + Flag(TxnDocId(txns[n - 1].id) in saved, TxnMove(txns[n - 1]))
  }

  function DrainedOf(batches: seq<Batch>, saved: set<string>, b: nat): int
    requires b <= |batches|
  {
    if b == 0 then 0
    else DrainedOf(batches, saved, b - 1) + DrainedTo(batches[b - 1].txns, saved, |batches[b - 1].txns|)
  }

  lemma {:induction false} DrainedSplits(txns: seq<Txn>, saved: set<string>, n: nat)
    requires n <= |txns|
    ensures var kept := Unsaved(txns, saved, n);
      Total(kept, Sale) - Total(kept, Refund) + DrainedTo(txns, saved, n)
      == TotalOf(txns, Sale, n) - TotalOf(txns, Refund, n)
    decreases n
  {
    if n > 0 {
      DrainedSplits(txns, saved, n - 1);
      TotalSnoc(Unsaved(txns, saved, n - 1), txns[n - 1], Sale);
      TotalSnoc(Unsaved(txns, saved, n - 1), txns[n - 1], Refund);
    }
  }

  /** Every batch nets its sales less its refunds, as grouping makes them. */
  predicate Netted(batches: seq<Batch>) {
    forall i :: 0 <= i < |batches| ==> NetsItsTxns(batches[i])
  }

  predicate NetsItsTxns(batch: Batch) { batch.net == Total(batch.txns, Sale) - Total(batch.txns, Refund) }

  lemma GroupsNetted(rows: seq<Row>, batches: seq<Batch>)
    requires Groups(rows, batches)
    ensures Netted(batches)
  {}

  lemma KeptBatchClears(batch: Batch, kept: Batch, saved: set<string>, done: seq<Txn>, resolve: Resolver)
    requires NetsItsTxns(batch) && DrainedFrom(batch, saved, kept)
    ensures Clearing(SettlementOf(kept)) + ClearingOf(TxnDocs(kept, done, |kept.txns|, resolve))
         == -DrainedTo(batch.txns, saved, |batch.txns|)
  {
    SettlementMoves(kept);
    TxnsClear(kept, done, |kept.txns|, resolve);
    DrainedSplits(batch.txns, saved, |batch.txns|);
  }

  lemma ClearingOfThree(head: seq<Document>, doc: Document, tail: seq<Document>)
    ensures ClearingOf(head + [doc] + tail) == ClearingOf(head) + Clearing(doc) + ClearingOf(tail)
  {
    ClearingSnoc(head, doc);
    ClearingAppend(head + [doc], tail);
  }

  lemma DocsClearNext(batches: seq<Batch>, b: nat, resolve: Resolver)
    requires 0 < b <= |batches|
    ensures var batch := batches[b - 1];
      ClearingOf(DocsOf(batches, b, resolve))
      == ClearingOf(DocsOf(batches, b - 1, resolve)) + Clearing(SettlementOf(batch))
         + ClearingOf(TxnDocs(batch, AllOf(batches, b - 1), |batch.txns|, resolve))
  {
    var batch := batches[b - 1];
    ClearingOfThree(DocsOf(batches, b - 1, resolve), SettlementOf(batch),
                    TxnDocs(batch, AllOf(batches, b - 1), |batch.txns|, resolve));
  }

  lemma KeptClearsNext(batches: seq<Batch>, kept: seq<Batch>, saved: set<string>, b: nat, resolve: Resolver)
    requires 0 < b <= |batches| && b <= |kept| && NetsItsTxns(batches[b - 1])
    requires DrainedFrom(batches[b - 1], saved, kept[b - 1])
    requires ClearingOf(DocsOf(kept, b - 1, resolve)) == -DrainedOf(batches, saved, b - 1)
    ensures ClearingOf(DocsOf(kept, b, resolve)) == -DrainedOf(batches, saved, b)
  {
    DocsClearNext(kept, b, resolve);
    KeptBatchClears(batches[b - 1], kept[b - 1], saved, AllOf(kept, b - 1), resolve);
  }

  /** Together the documents move the opposite of what was drained from their batches. */
  lemma KeptClears(batches: seq<Batch>, kept: seq<Batch>, saved: set<string>, b: nat, resolve: Resolver)
    requires b <= |batches| && Netted(batches) && Drained(batches, saved, kept, |batches|)
    ensures ClearingOf(DocsOf(kept, b, resolve)) == -DrainedOf(batches, saved, b)
  {
    for i := 0 to b
      invariant ClearingOf(DocsOf(kept, i, resolve)) == -DrainedOf(batches, saved, i)
    {
      assert NetsItsTxns(batches[i]) && DrainedFrom(batches[i], saved, kept[i]);
      KeptClearsNext(batches, kept, saved, i + 1, resolve);
    }
  }

  /** What an import saves moves through clearing exactly the opposite of what it passes over and of what was saved
      before it. So it leaves the account alone exactly when those come to nothing. */
  lemma ImportClears(rows: seq<Row>, batches: seq<Batch>, kept: seq<Batch>, saved: Store, resolve: Resolver,
                     accepts: Document -> bool)
    requires Groups(rows, batches) && Drained(batches, saved.Keys, kept, |batches|)
    ensures var docs := DocsOf(kept, |kept|, resolve);
      ClearingOf(NewDocs(saved, docs, |docs|, accepts))
      == -ClearingOf(PassedOver(saved, docs, |docs|, accepts)) - DrainedOf(batches, saved.Keys, |batches|)
  {
    var docs := DocsOf(kept, |kept|, resolve);
    NewOrPassed(saved, docs, |docs|, accepts);
    assert docs[..|docs|] == docs;
    GroupsNetted(rows, batches);
    KeptClears(batches, kept, saved.Keys, |kept|, resolve);
  }

  predicate HoldsDoc(saved: Store, doc: Document) { doc.id in saved && saved[doc.id] == doc }

  /** A file of which nothing is saved, refused or there twice is saved as it was built: clearing is left alone, and an
      invoice is paid what its sales come to, as far as it was open. */
  lemma FreshImport(rows: seq<Row>, batches: seq<Batch>, saved: Store, resolve: Resolver, accepts: Document -> bool,
                    id: string, open: int)
    requires Groups(rows, batches) && SalesNonnegative(AllOf(batches, |batches|))
    requires Consistent(resolve) && exists n ::
        resolve(n).Some? && resolve(n).value.id == id && resolve(n).value.open == open
    requires AllFresh(saved, DocsOf(batches, |batches|, resolve), |DocsOf(batches, |batches|, resolve)|, accepts)
    ensures var docs := DocsOf(batches, |batches|, resolve);
      var made := NewDocs(saved, docs, |docs|, accepts);
      && (forall i :: 0 <= i < |docs| ==> HoldsDoc(SavedWith(saved, docs, |docs|, accepts), docs[i]))
      && ClearingOf(made) == 0
      && RecordedIn(made, id) == Min(Max(open, 0), Named(AllOf(batches, |batches|), id, resolve))
  {
    var docs := DocsOf(batches, |batches|, resolve);
    AllSavedIff(saved, docs, accepts);
    SavedKeeps(saved, docs, |docs|, accepts);
    AllClears(rows, batches, resolve);
    InvoicePaid(batches, id, open, resolve);
  }

  /** All the documents of all the batches leave clearing where they found it. */
  lemma AllClears(rows: seq<Row>, batches: seq<Batch>, resolve: Resolver)
    requires Groups(rows, batches)
    ensures ClearingOf(DocsOf(batches, |batches|, resolve)) == 0
  {
    GroupsNetted(rows, batches);
    NettedClears(batches, |batches|, resolve);
  }

  lemma NettedClears(batches: seq<Batch>, b: nat, resolve: Resolver)
    requires b <= |batches| && Netted(batches)
    ensures ClearingOf(DocsOf(batches, b, resolve)) == 0
  {
    for i := 0 to b
      invariant ClearingOf(DocsOf(batches, i, resolve)) == 0
    {
      DocsClearNext(batches, i + 1, resolve);
      assert NetsItsTxns(batches[i]);
      BatchClears(batches[i], AllOf(batches, i), resolve);
    }
  }

  /** A transaction listed twice is in its batch's net twice and saved once, so its amount stays in clearing. */
  lemma ListedTwice(row: Row, rows: seq<Row>, batches: seq<Batch>, resolve: Resolver, accepts: Document -> bool)
    requires row == Row("t", "b", 1, SettledSuccessfully, 5, None, None) && rows == [row, row]
    requires Groups(rows, batches) && forall doc :: accepts(doc)
    ensures var docs := DocsOf(batches, |batches|, resolve);
      |docs| == 3 && docs[1] == docs[2] && ClearingOf(NewDocs(map[], docs, 3, accepts)) == -5
  {
    TwiceGrouped(row, rows, batches);
    var docs := DocsOf(batches, 1, resolve);
    TwiceBuilt(batches[0], batches, resolve);
    assert docs[0].id != docs[1].id by { assert docs[0].id[8] == 'b' && docs[1].id[8] == 't'; }
    TwiceSaved(docs, accepts);
    SettlementMoves(batches[0]);
    ClearingOfTwo(docs[0], docs[1]);
  }

  lemma ClearingOfTwo(a: Document, b: Document)
    ensures ClearingOf([a, b]) == Clearing(a) + Clearing(b)
  {
    ClearingSnoc([], a);
    ClearingSnoc([a], b);
    assert [a] + [b] == [a, b] && [] + [a] == [a];
  }

  lemma TwiceSaved(docs: seq<Document>, accepts: Document -> bool)
    requires |docs| == 3 && docs[0].id != docs[1].id && docs[1] == docs[2] && forall doc :: accepts(doc)
    ensures NewDocs(map[], docs, 3, accepts) == [docs[0], docs[1]]
  {
    assert SavedWith(map[], docs, 1, accepts) == map[docs[0].id := docs[0]];
    assert NewDocs(map[], docs, 1, accepts) == [docs[0]];
    assert NewDocs(map[], docs, 2, accepts) == [docs[0], docs[1]];
  }

  /** The batch of two equal sales, naming no invoice. */
  predicate IsTwice(batch: Batch) {
    && batch.id == "b" && batch.net == 10 && batch.settledOn == 1 && batch.fee.None?
    && batch.txns == [Txn("t", None, None, 5, Sale), Txn("t", None, None, 5, Sale)]
  }

  lemma TwiceBuilt(batch: Batch, batches: seq<Batch>, resolve: Resolver)
    requires batches == [batch] && IsTwice(batch)
    ensures var docs := DocsOf(batches, 1, resolve);
      && |docs| == 3 && docs[0] == SettlementOf(batch) && docs[1] == docs[2]
      && docs[1].id == TxnDocId("t") && Clearing(docs[1]) == 5
  {
    var t := batch.txns[0];
    assert AllOf(batches, 0) == [] && DocsOf(batches, 0, resolve) == [] && TxnDocs(batch, [], 0, resolve) == [];
    assert TxnDocs(batch, [], 1, resolve) == [PaymentOf(1, [] + batch.txns[..0], t, resolve)];
    assert TxnDocs(batch, [], 2, resolve) ==
        [PaymentOf(1, [] + batch.txns[..0], t, resolve), PaymentOf(1, [] + batch.txns[..1], t, resolve)];
    assert DocsOf(batches, 1, resolve) == [SettlementOf(batch)] + TxnDocs(batch, [], 2, resolve);
  }

  lemma TwiceGrouped(row: Row, rows: seq<Row>, batches: seq<Batch>)
    requires row == Row("t", "b", 1, SettledSuccessfully, 5, None, None) && rows == [row, row]
    requires Groups(rows, batches)
    ensures |batches| == 1 && batches == [batches[0]] && IsTwice(batches[0])
  {
    assert BatchIds(rows, 0) == [] && BatchIds(rows, 1) == ["b"] && BatchIds(rows, 2) == ["b"];
    assert TxnsOf(rows, "b", 0) == [] && TxnsOf(rows, "b", 1) == [TxnOf(row)];
    TwiceTotal([TxnOf(row), TxnOf(row)]);
    assert TxnsOf(rows, "b", 2) == [TxnOf(row), TxnOf(row)];
    assert FirstDate(rows, "b", 1) == 1;
  }

  lemma TwiceTotal(txns: seq<Txn>)
    requires |txns| == 2 && forall i :: 0 <= i < 2 ==> txns[i].kind.Sale? && txns[i].amount == 5
    ensures Total(txns, Sale) == 10 && Total(txns, Refund) == 0
  {
    assert TotalOf(txns, Sale, 0) == 0 == TotalOf(txns, Refund, 0);
    assert TotalOf(txns, Sale, 1) == 5 && TotalOf(txns, Refund, 1) == 0;
  }

  class ImportLedger {
    /** Saved documents by id: the first version of each. */
    var saved: map<string, Document>
    /** The posting rules' and the journal's word on a document. */
    const accepts: Document -> bool

    constructor (accepts: Document -> bool)
      ensures saved == map[] && this.accepts == accepts
    {
      this.accepts := accepts;
      saved := map[];
    }

    /** `import_settlement` of parsed rows: `kept` are the batches without what was saved, and their documents are
        saved one by one. What is saved stays; what is not is saved once, as it was built, if it is accepted. A file
        all of whose documents are saved changes nothing. */
    method Import(rows: seq<Row>, resolve: Resolver) returns (ghost batches: seq<Batch>, ghost kept: seq<Batch>)
      modifies this
      ensures Groups(rows, batches) && Drained(batches, old(saved).Keys, kept, |batches|)
      ensures var docs := DocsOf(kept, |kept|, resolve);
        saved == SavedWith(old(saved), docs, |docs|, accepts)
      ensures forall id :: id in old(saved) ==> id in saved && saved[id] == old(saved)[id]
      ensures forall id :: id in saved ==> id in old(saved) || id in DocIds(batches, |batches|)
      ensures DocIds(batches, |batches|) <= old(saved).Keys ==> saved == old(saved)
      ensures (forall doc :: accepts(doc)) ==> DocIds(batches, |batches|) <= saved.Keys
    {
      var grouped := GroupBatches(rows);
      batches := grouped;
      var left := [];
      for b := 0 to |grouped|
        invariant Drained(grouped, saved.Keys, left, b) && saved == old(saved)
      {
        var txns := KeepUnsaved(grouped[b].txns, saved.Keys);
        left := left + [grouped[b].(txns := txns)];
      }
      kept := left;
      var docs := SettlementDocuments(left, resolve);
      SavedOf(old(saved), grouped, left, docs, resolve, accepts);
      SaveAll(docs);
    }

    /** The closing loop. */
    method SaveAll(docs: seq<Document>)
      modifies this
      ensures saved == SavedWith(old(saved), docs, |docs|, accepts)
    {
      for i := 0 to |docs|
        invariant saved == SavedWith(old(saved), docs, i, accepts)
      {
        if docs[i].id !in saved && accepts(docs[i]) { saved := saved[docs[i].id := docs[i]]; }
      }
    }
  }

  lemma SavedOf(saved: Store, batches: seq<Batch>, kept: seq<Batch>, docs: seq<Document>, resolve: Resolver,
                accepts: Document -> bool)
    requires Drained(batches, saved.Keys, kept, |batches|) && docs == DocsOf(kept, |kept|, resolve)
    ensures var now := SavedWith(saved, docs, |docs|, accepts);
      && (forall id :: id in saved ==> id in now && now[id] == saved[id])
      && (forall id :: id in now ==> id in saved || id in DocIds(batches, |batches|))
      && (DocIds(batches, |batches|) <= saved.Keys ==> now == saved)
      && ((forall doc :: accepts(doc)) ==> DocIds(batches, |batches|) <= now.Keys)
  {
    DocIdsAre(kept, |kept|, resolve);
    DrainedIds(batches, saved.Keys, kept, |batches|);
    SavedByIds(saved, docs, accepts);
  }

  lemma SavedByIds(saved: Store, docs: seq<Document>, accepts: Document -> bool)
    ensures var now := SavedWith(saved, docs, |docs|, accepts);
      && (forall id :: id in saved ==> id in now && now[id] == saved[id])
      && saved.Keys <= now.Keys <= saved.Keys + IdsOf(docs)
      && (IdsOf(docs) <= saved.Keys ==> now == saved)
      && ((forall doc :: accepts(doc)) ==> IdsOf(docs) <= now.Keys)
  {
    SavedKeeps(saved, docs, |docs|, accepts);
    SavedIds(saved, docs, |docs|, accepts);
    AcceptedSaved(saved, docs, |docs|, accepts);
    assert docs[..|docs|] == docs;
    if IdsOf(docs) <= saved.Keys {
      forall i | 0 <= i < |docs| ensures docs[i].id in saved { assert docs[i] in docs && docs[i].id in IdsOf(docs); }
      NothingNew(saved, docs, |docs|, accepts);
    }
  }
}
