/** Open documents and aging, and why their totals tie to the control account. */
module OpenItems {
  import opened Wrappers
  import opened Documents

  datatype BookSide = Receivable | Payable

  /** Whether a kind puts an amount on the book, and whether as a credit (`Book::opens`). */
  function Opens(book: BookSide, kind: DocKind): Option<bool> {
    match (book, kind)
    case (Receivable, Invoice) => Some(false)
    case (Payable, Bill) => Some(false)
    case (Receivable, CreditMemo) => Some(true)
    case (Payable, VendorCredit) => Some(true)
    case _ => None
  }

  /** Whether a kind's applications settle items on the book (`Book::settles`). */
  predicate Settles(book: BookSide, kind: DocKind) {
    match book
    case Receivable => kind.Payment? || kind.CreditMemo?
    case Payable => kind.BillPayment? || kind.VendorCredit?
  }

  predicate InWindow(doc: Document, asOf: int) { doc.date <= asOf && !doc.isVoided }

  predicate IsSettling(doc: Document, book: BookSide, asOf: int) { InWindow(doc, asOf) && Settles(book, doc.kind) }

  predicate IsOpener(doc: Document, book: BookSide, asOf: int) { InWindow(doc, asOf) && Opens(book, doc.kind).Some? }

  predicate IsCredit(book: BookSide, kind: DocKind) { Opens(book, kind) == Some(true) }

  function Flag(b: bool, x: int): int { if b then x else 0 }

  // ---- What applications move ----

  /** What the first `n` applications move to `id`. */
  function MovedTo(apps: seq<Application>, id: string, n: nat): int
    requires n <= |apps|
  {
    if n == 0 then 0
    else
      MovedTo(apps, id, n - 1) +
      Flag(!IsContract(apps[n - 1].targetKind) && apps[n - 1].target == id, apps[n - 1].amount)
  }

  /** What they move to any of `ids`. */
  function MovedInto(apps: seq<Application>, ids: set<string>, n: nat): int
    requires n <= |apps|
  {
    if n == 0 then 0
    else
      MovedInto(apps, ids, n - 1) +
      Flag(!IsContract(apps[n - 1].targetKind) && apps[n - 1].target in ids, apps[n - 1].amount)
  }

  /** What they move in all. */
  function MovedAll(apps: seq<Application>, n: nat): int
    requires n <= |apps|
  {
    if n == 0 then 0
    else MovedAll(apps, n - 1) + Flag(!IsContract(apps[n - 1].targetKind), apps[n - 1].amount)
  }

  function AppliedTo(doc: Document, id: string): int { MovedTo(doc.applications, id, |doc.applications|) }

  function AppliedInto(doc: Document, ids: set<string>): int { MovedInto(doc.applications, ids, |doc.applications|) }

  function AppliedAll(doc: Document): int { MovedAll(doc.applications, |doc.applications|) }

  // ---- The rows ----

  /** What the settling documents among the first `n` apply to `id`. */
  function PaidTo(docs: seq<Document>, book: BookSide, asOf: int, id: string, n: nat): int
    requires n <= |docs|
  {
    if n == 0 then 0
    else PaidTo(docs, book, asOf, id, n - 1) + Flag(IsSettling(docs[n - 1], book, asOf), AppliedTo(docs[n - 1], id))
  }

  /** A credit that settles as well as opens. */
  predicate IsDrawn(doc: Document, book: BookSide, asOf: int) {
    IsSettling(doc, book, asOf) && IsCredit(book, doc.kind)
  }

  /** What the credits called `id` among the first `n` documents have applied themselves. */
  function ConsumedBy(docs: seq<Document>, book: BookSide, asOf: int, id: string, n: nat): int
    requires n <= |docs|
  {
    if n == 0 then 0
    else
      ConsumedBy(docs, book, asOf, id, n - 1) +
      Flag(IsDrawn(docs[n - 1], book, asOf) && docs[n - 1].id == id, AppliedAll(docs[n - 1]))
  }

  /** The ids whose (last) document is dated after `asOf`. */
  function LaterIds(docs: seq<Document>, asOf: int, n: nat): set<string>
    requires n <= |docs|
  {
    if n == 0 then {}
    else if docs[n - 1].date > asOf then LaterIds(docs, asOf, n - 1) + {docs[n - 1].id}
    else LaterIds(docs, asOf, n - 1) - {docs[n - 1].id}
  }

  datatype OpenDocument = OpenDocument(
      id: string, kind: DocKind, contact: string, due: int, total: int, applied: int, open: int)

  function ContactId(doc: Document): string { match doc.contact case Some(c) => c.id case None => "" }

  predicate IsPrepayment(book: BookSide, kind: DocKind) { book.Payable? && kind.BillPayment? }

  /** What a bill payment has not applied to anything yet on the date. */
  function NotYetApplied(docs: seq<Document>, asOf: int, doc: Document): int {
    doc.unapplied + AppliedInto(doc, LaterIds(docs, asOf, |docs|))
  }

  /** What a document has been paid or used. */
  function Used(docs: seq<Document>, book: BookSide, asOf: int, doc: Document): int {
    var paid := PaidTo(docs, book, asOf, doc.id, |docs|);
    if IsCredit(book, doc.kind) then ConsumedBy(docs, book, asOf, doc.id, |docs|) - paid else paid
  }

  function Negated(x: int, negate: bool): int { if negate then -x else x }

  /** What a document leaves open, signed; nothing for a document off the book. */
  function OpenAmount(docs: seq<Document>, book: BookSide, asOf: int, doc: Document): int {
    if !InWindow(doc, asOf) then 0
    else if IsPrepayment(book, doc.kind) then -NotYetApplied(docs, asOf, doc)
    else if Opens(book, doc.kind).None? then 0
    else Negated(DocumentTotal(doc) - Used(docs, book, asOf, doc), IsCredit(book, doc.kind))
  }

  function RowOf(docs: seq<Document>, book: BookSide, asOf: int, doc: Document): OpenDocument {
    var open := OpenAmount(docs, book, asOf, doc);
    if IsPrepayment(book, doc.kind) then OpenDocument(doc.id, doc.kind, ContactId(doc), doc.date, open, 0, open)
    else
      OpenDocument(doc.id, doc.kind, ContactId(doc), match doc.due case Some(due) => due case None => doc.date,
        Negated(DocumentTotal(doc), IsCredit(book, doc.kind)), Used(docs, book, asOf, doc), open)
  }

  /** The rows of the first `n` documents, in their order, none of them zero. */
  function Rows(docs: seq<Document>, book: BookSide, asOf: int, n: nat): seq<OpenDocument>
    requires n <= |docs|
  {
    if n == 0 then []
    else if OpenAmount(docs, book, asOf, docs[n - 1]) == 0 then Rows(docs, book, asOf, n - 1)
    else Rows(docs, book, asOf, n - 1) + [RowOf(docs, book, asOf, docs[n - 1])]
  }

  // ---- `open_items` ----

  function At(m: map<string, int>, id: string): int { if id in m then m[id] else 0 }

  /** The loop over one document's applications. */
  method AddApplications(paid: map<string, int>, apps: seq<Application>) returns (paid': map<string, int>)
    ensures forall id :: At(paid', id) == At(paid, id) + MovedTo(apps, id, |apps|)
  {
    paid' := paid;
    for i := 0 to |apps|
      invariant forall id :: At(paid', id) == At(paid, id) + MovedTo(apps, id, i)
    {
      if !IsContract(apps[i].targetKind) {
        paid' := paid'[apps[i].target := At(paid', apps[i].target) + apps[i].amount];
      }
    }
  }

  method SumApplications(apps: seq<Application>) returns (used: int)
    ensures used == MovedAll(apps, |apps|)
  {
    used := 0;
    for i := 0 to |apps|
      invariant used == MovedAll(apps, i)
    {
      if !IsContract(apps[i].targetKind) { used := used + apps[i].amount; }
    }
  }

  /** The first loop: what is paid by target, and what each credit has applied itself. */
  method Settlements(docs: seq<Document>, book: BookSide, asOf: int)
      returns (paid: map<string, int>, consumed: map<string, int>)
    ensures forall id :: At(paid, id) == PaidTo(docs, book, asOf, id, |docs|)
    ensures forall id :: At(consumed, id) == ConsumedBy(docs, book, asOf, id, |docs|)
  {
    paid, consumed := map[], map[];
    for i := 0 to |docs|
      invariant forall id :: At(paid, id) == PaidTo(docs, book, asOf, id, i)
      invariant forall id :: At(consumed, id) == ConsumedBy(docs, book, asOf, id, i)
    {
      if IsSettling(docs[i], book, asOf) {
        paid := AddApplications(paid, docs[i].applications);
        if IsCredit(book, docs[i].kind) {
          var used := SumApplications(docs[i].applications);
          consumed := consumed[docs[i].id := At(consumed, docs[i].id) + used];
        }
      }
    }
  }

  /** A bill payment's loop over the bills that do not exist yet. */
  method LaterApplied(doc: Document, dates: map<string, int>, asOf: int, ghost later: set<string>) returns (amount: int)
    requires forall id :: id in later <==> id in dates && dates[id] > asOf
    ensures amount == doc.unapplied + AppliedInto(doc, later)
  {
    amount := doc.unapplied;
    for i := 0 to |doc.applications|
      invariant amount == doc.unapplied + MovedInto(doc.applications, later, i)
    {
      var a := doc.applications[i];
      if !IsContract(a.targetKind) && a.target in dates && dates[a.target] > asOf { amount := amount + a.amount; }
    }
  }

  method Dates(docs: seq<Document>, asOf: int) returns (dates: map<string, int>)
    ensures forall id :: id in LaterIds(docs, asOf, |docs|) <==> id in dates && dates[id] > asOf
  {
    dates := map[];
    for i := 0 to |docs|
      invariant forall id :: id in LaterIds(docs, asOf, i) <==> id in dates && dates[id] > asOf
    {
      dates := dates[docs[i].id := docs[i].date];
    }
  }

  /** `open_items`. */
  method ComputeOpenItems(docs: seq<Document>, book: BookSide, asOf: int) returns (open: seq<OpenDocument>)
    ensures open == Rows(docs, book, asOf, |docs|)
  {
    var dates := Dates(docs, asOf);
    var paid, consumed := Settlements(docs, book, asOf);
    open := [];
    for i := 0 to |docs|
      invariant open == Rows(docs, book, asOf, i)
    {
      var doc := docs[i];
      if InWindow(doc, asOf) {
        if IsPrepayment(book, doc.kind) {
          var amount := LaterApplied(doc, dates, asOf, LaterIds(docs, asOf, |docs|));
          if amount != 0 {
            open := open + [OpenDocument(doc.id, doc.kind, ContactId(doc), doc.date, -amount, 0, -amount)];
          }
        } else if Opens(book, doc.kind).Some? {
          var credit := Opens(book, doc.kind).value;
          var gross := ComputeTotal(doc);
          var used := if credit then At(consumed, doc.id) - At(paid, doc.id) else At(paid, doc.id);
          if gross - used != 0 {
            open := open + [OpenDocument(doc.id, doc.kind, ContactId(doc),
              match doc.due case Some(due) => due case None => doc.date,
              Negated(gross, credit), used, Negated(gross - used, credit))];
          }
        }
      }
    }
  }

  // ---- Tying to the control account ----

  function SumOpen(rows: seq<OpenDocument>, n: nat): int
    requires n <= |rows|
  {
    if n == 0 then 0 else SumOpen(rows, n - 1) + rows[n - 1].open
  }

  /** What the first `n` documents put on the control account: invoices less credit memos less
      what payments apply; on the payable side also less what bill payments leave unapplied. */
  function ControlBalance(docs: seq<Document>, book: BookSide, asOf: int, n: nat): int
    requires n <= |docs|
  {
    if n == 0 then 0 else ControlBalance(docs, book, asOf, n - 1) + ControlLeg(docs[n - 1], book, asOf)
  }

  function ControlLeg(doc: Document, book: BookSide, asOf: int): int {
    if !InWindow(doc, asOf) then 0
    else if Opens(book, doc.kind).Some? then Negated(DocumentTotal(doc), IsCredit(book, doc.kind))
    else if Settles(book, doc.kind) then -AppliedAll(doc) - Flag(book.Payable?, doc.unapplied)
    else 0
  }

  /** The in-window openers among the first `n` documents. */
  function OpenerIds(docs: seq<Document>, book: BookSide, asOf: int, n: nat): (ids: set<string>)
    requires n <= |docs|
    ensures forall i :: 0 <= i < n && IsOpener(docs[i], book, asOf) ==> docs[i].id in ids
    ensures forall id :: id in ids ==> exists i :: 0 <= i < n && docs[i].id == id && IsOpener(docs[i], book, asOf)
  {
    if n == 0 then {}
    else if IsOpener(docs[n - 1], book, asOf) then OpenerIds(docs, book, asOf, n - 1) + {docs[n - 1].id}
    else OpenerIds(docs, book, asOf, n - 1)
  }

  /** What a document applies to nothing the view shows. */
  function StrayOf(docs: seq<Document>, book: BookSide, asOf: int, doc: Document): int {
    if !IsSettling(doc, book, asOf) then 0
    else
      AppliedAll(doc) - AppliedInto(doc, OpenerIds(docs, book, asOf, |docs|))
        - Flag(IsPrepayment(book, doc.kind), AppliedInto(doc, LaterIds(docs, asOf, |docs|)))
  }

  function Stray(docs: seq<Document>, book: BookSide, asOf: int, n: nat): int
    requires n <= |docs|
  {
    if n == 0 then 0 else Stray(docs, book, asOf, n - 1) + StrayOf(docs, book, asOf, docs[n - 1])
  }

  predicate DistinctIds(docs: seq<Document>) { forall i, j :: 0 <= i < j < |docs| ==> docs[i].id != docs[j].id }

  lemma {:induction false} RowsSum(docs: seq<Document>, book: BookSide, asOf: int, n: nat)
    requires n <= |docs|
    ensures SumOpen(Rows(docs, book, asOf, n), |Rows(docs, book, asOf, n)|) == OpenSum(docs, book, asOf, n)
  {
    if n > 0 {
      RowsSum(docs, book, asOf, n - 1);
      var shorter := Rows(docs, book, asOf, n - 1);
      SumOpenPrefix(shorter, RowOf(docs, book, asOf, docs[n - 1]), |shorter|);
    }
  }

  lemma {:induction false} SumOpenPrefix(rows: seq<OpenDocument>, row: OpenDocument, n: nat)
    requires n <= |rows|
    ensures SumOpen(rows + [row], n) == SumOpen(rows, n)
  {
    if n > 0 { SumOpenPrefix(rows, row, n - 1); }
  }

  function OpenSum(docs: seq<Document>, book: BookSide, asOf: int, n: nat): int
    requires n <= |docs|
  {
    if n == 0 then 0 else OpenSum(docs, book, asOf, n - 1) + OpenAmount(docs, book, asOf, docs[n - 1])
  }

  /** What is paid to the openers among the first `m` documents. */
  function PaidToOpeners(docs: seq<Document>, book: BookSide, asOf: int, m: nat): int
    requires m <= |docs|
  {
    if m == 0 then 0
    else
      PaidToOpeners(docs, book, asOf, m - 1) +
      Flag(IsOpener(docs[m - 1], book, asOf), PaidTo(docs, book, asOf, docs[m - 1].id, |docs|))
  }

  /** The same, counted by who pays: what the first `n` documents apply into `ids`. */
  function Landed(docs: seq<Document>, book: BookSide, asOf: int, ids: set<string>, n: nat): int
    requires n <= |docs|
  {
    if n == 0 then 0
    else Landed(docs, book, asOf, ids, n - 1) + Flag(IsSettling(docs[n - 1], book, asOf), AppliedInto(docs[n - 1], ids))
  }

  lemma {:induction false} IntoOneMore(apps: seq<Application>, ids: set<string>, id: string, n: nat)
    requires n <= |apps| && id !in ids
    ensures MovedInto(apps, ids + {id}, n) == MovedInto(apps, ids, n) + MovedTo(apps, id, n)
  {
    if n > 0 { IntoOneMore(apps, ids, id, n - 1); }
  }

  lemma {:induction false} LandedOneMore(docs: seq<Document>, book: BookSide, asOf: int, ids: set<string>, id: string,
                                         n: nat)
    requires n <= |docs| && id !in ids
    ensures Landed(docs, book, asOf, ids + {id}, n) ==
        Landed(docs, book, asOf, ids, n) + PaidTo(docs, book, asOf, id, n)
  {
    if n > 0 {
      LandedOneMore(docs, book, asOf, ids, id, n - 1);
      IntoOneMore(docs[n - 1].applications, ids, id, |docs[n - 1].applications|);
    }
  }

  lemma {:induction false} IntoNone(apps: seq<Application>, n: nat)
    requires n <= |apps|
    ensures MovedInto(apps, {}, n) == 0
  {
    if n > 0 { IntoNone(apps, n - 1); }
  }

  lemma {:induction false} LandedNone(docs: seq<Document>, book: BookSide, asOf: int, n: nat)
    requires n <= |docs|
    ensures Landed(docs, book, asOf, {}, n) == 0
  {
    if n > 0 {
      LandedNone(docs, book, asOf, n - 1);
      IntoNone(docs[n - 1].applications, |docs[n - 1].applications|);
    }
  }

  /** Counting payments by target or by payer comes to the same. */
  lemma {:induction false} PaidIsLanded(docs: seq<Document>, book: BookSide, asOf: int, m: nat)
    requires m <= |docs| && DistinctIds(docs)
    ensures PaidToOpeners(docs, book, asOf, m) == Landed(docs, book, asOf, OpenerIds(docs, book, asOf, m), |docs|)
  {
    if m == 0 {
      LandedNone(docs, book, asOf, |docs|);
    } else {
      PaidIsLanded(docs, book, asOf, m - 1);
      if IsOpener(docs[m - 1], book, asOf) {
        LandedOneMore(docs, book, asOf, OpenerIds(docs, book, asOf, m - 1), docs[m - 1].id, |docs|);
      }
    }
  }

  /** With distinct ids a credit has consumed exactly its own applications. */
  lemma {:induction false} ConsumedIsOwn(docs: seq<Document>, book: BookSide, asOf: int, i: nat, n: nat)
    requires n <= |docs| && i < |docs| && DistinctIds(docs)
    ensures ConsumedBy(docs, book, asOf, docs[i].id, n) ==
        Flag(i < n && IsDrawn(docs[i], book, asOf), AppliedAll(docs[i]))
  {
    if n > 0 { ConsumedIsOwn(docs, book, asOf, i, n - 1); }
  }

  /** What openers, credits and prepayments among the first `n` come to. */
  lemma {:induction false} OpenSumSplit(docs: seq<Document>, book: BookSide, asOf: int, n: nat)
    requires n <= |docs| && DistinctIds(docs)
    ensures OpenSum(docs, book, asOf, n)
         == ControlBalance(docs, book, asOf, n) + Applications(docs, book, asOf, n) - PaidToOpeners(docs, book, asOf, n)
            - LaterPrepaid(docs, book, asOf, n)
  {
    if n > 0 {
      OpenSumSplit(docs, book, asOf, n - 1);
      ConsumedIsOwn(docs, book, asOf, n - 1, |docs|);
    }
  }

  /** Everything the first `n` settling documents apply. */
  function Applications(docs: seq<Document>, book: BookSide, asOf: int, n: nat): int
    requires n <= |docs|
  {
    if n == 0 then 0
    else Applications(docs, book, asOf, n - 1) + Flag(IsSettling(docs[n - 1], book, asOf), AppliedAll(docs[n - 1]))
  }

  /** What the first `n` bill payments apply to bills that do not exist yet. */
  function LaterPrepaid(docs: seq<Document>, book: BookSide, asOf: int, n: nat): int
    requires n <= |docs|
  {
    if n == 0 then 0
    else
      LaterPrepaid(docs, book, asOf, n - 1) +
      Flag(IsSettling(docs[n - 1], book, asOf) && IsPrepayment(book, docs[n - 1].kind),
             AppliedInto(docs[n - 1], LaterIds(docs, asOf, |docs|)))
  }

  lemma {:induction false} StraySplit(docs: seq<Document>, book: BookSide, asOf: int, n: nat)
    requires n <= |docs|
    ensures Stray(docs, book, asOf, n)
         == Applications(docs, book, asOf, n) - Landed(docs, book, asOf, OpenerIds(docs, book, asOf, |docs|), n)
            - LaterPrepaid(docs, book, asOf, n)
  {
    if n > 0 { StraySplit(docs, book, asOf, n - 1); }
  }

  /** The open items come to the control balance plus exactly what is applied to nothing in view. */
  lemma OpenItemsTie(docs: seq<Document>, book: BookSide, asOf: int)
    requires DistinctIds(docs)
    ensures var rows := Rows(docs, book, asOf, |docs|);
      SumOpen(rows, |rows|) == ControlBalance(docs, book, asOf, |docs|) + Stray(docs, book, asOf, |docs|)
  {
    RowsSum(docs, book, asOf, |docs|);
    OpenSumSplit(docs, book, asOf, |docs|);
    PaidIsLanded(docs, book, asOf, |docs|);
    StraySplit(docs, book, asOf, |docs|);
  }

  // ---- When nothing is stray ----

  /** An application that moves money is to an opener in view or, from a bill payment, to a
      document that does not exist yet. */
  predicate Placed(a: Application, shown: set<string>, later: set<string>, prepays: bool) {
    IsContract(a.targetKind) || a.target in shown || (prepays && a.target in later)
  }

  lemma {:induction false} PlacedNotStray(apps: seq<Application>, shown: set<string>, later: set<string>,
                                          prepays: bool, n: nat)
    requires n <= |apps| && shown !! later
    requires forall i :: 0 <= i < n ==> Placed(apps[i], shown, later, prepays)
    ensures MovedAll(apps, n) == MovedInto(apps, shown, n) + Flag(prepays, MovedInto(apps, later, n))
  {
    if n > 0 { PlacedNotStray(apps, shown, later, prepays, n - 1); }
  }

  lemma {:induction false} LaterAreLater(docs: seq<Document>, asOf: int, n: nat)
    requires n <= |docs| && DistinctIds(docs)
    ensures forall i :: 0 <= i < n && docs[i].date <= asOf ==> docs[i].id !in LaterIds(docs, asOf, n)
    ensures forall id :: id in LaterIds(docs, asOf, n) ==>
        exists i :: 0 <= i < n && docs[i].id == id && docs[i].date > asOf
  {
    if n > 0 { LaterAreLater(docs, asOf, n - 1); }
  }

  lemma {:induction false} NoneStray(docs: seq<Document>, book: BookSide, asOf: int, n: nat)
    requires n <= |docs| && DistinctIds(docs)
    requires forall i, j :: 0 <= i < |docs| && IsSettling(docs[i], book, asOf) && 0 <= j < |docs[i].applications| ==>
      Placed(docs[i].applications[j], OpenerIds(docs, book, asOf, |docs|), LaterIds(docs, asOf, |docs|),
          IsPrepayment(book, docs[i].kind))
    ensures Stray(docs, book, asOf, n) == 0
  {
    if n > 0 {
      NoneStray(docs, book, asOf, n - 1);
      if IsSettling(docs[n - 1], book, asOf) {
        LaterAreLater(docs, asOf, |docs|);
        var apps := docs[n - 1].applications;
        PlacedNotStray(apps, OpenerIds(docs, book, asOf, |docs|), LaterIds(docs, asOf, |docs|),
            IsPrepayment(book, docs[n - 1].kind), |apps|);
      }
    }
  }

  /** When every application is placed, the view ties to the control account to the cent. */
  lemma PlacedTies(docs: seq<Document>, book: BookSide, asOf: int)
    requires DistinctIds(docs)
    requires forall i, j :: 0 <= i < |docs| && IsSettling(docs[i], book, asOf) && 0 <= j < |docs[i].applications| ==>
      Placed(docs[i].applications[j], OpenerIds(docs, book, asOf, |docs|), LaterIds(docs, asOf, |docs|),
          IsPrepayment(book, docs[i].kind))
    ensures var rows := Rows(docs, book, asOf, |docs|);
      SumOpen(rows, |rows|) == ControlBalance(docs, book, asOf, |docs|)
  {
    OpenItemsTie(docs, book, asOf);
    NoneStray(docs, book, asOf, |docs|);
  }

  // ---- Aging ----

  datatype Bucket = Current | Days30 | Days60 | Days90 | Over90

  function BucketOf(daysPastDue: int): Bucket {
    if daysPastDue <= 0 then Current
    else if daysPastDue <= 30 then Days30
    else if daysPastDue <= 60 then Days60
    else if daysPastDue <= 90 then Days90
    else Over90
  }

  datatype AgingRow = AgingRow(current: int, days30: int, days60: int, days90: int, over90: int, total: int)

  const EMPTY_ROW := AgingRow(0, 0, 0, 0, 0, 0)

  /** A bucket's column, or for `None` the total column. */
  function Column(row: AgingRow, bucket: Option<Bucket>): int {
    match bucket
    case None => row.total
    case Some(Current) => row.current
    case Some(Days30) => row.days30
    case Some(Days60) => row.days60
    case Some(Days90) => row.days90
    case Some(Over90) => row.over90
  }

  /** `AgingRow::add`: into its bucket, and into the total. */
  method Add(row: AgingRow, days: int, amount: int) returns (row': AgingRow)
    ensures forall bucket ::
      Column(row', bucket) == Column(row, bucket) + Flag(bucket.None? || bucket.value == BucketOf(days), amount)
  {
    row' := row.(total := row.total + amount);
    if days <= 0 { row' := row'.(current := row.current + amount); }
    else if days <= 30 { row' := row'.(days30 := row.days30 + amount); }
    else if days <= 60 { row' := row'.(days60 := row.days60 + amount); }
    else if days <= 90 { row' := row'.(days90 := row.days90 + amount); }
    else { row' := row'.(over90 := row.over90 + amount); }
  }

  /** Whether an open item counts in a bucket's column of a contact's row; `None` for any. */
  predicate Counts(item: OpenDocument, asOf: int, contact: Option<string>, bucket: Option<Bucket>) {
    && (contact.None? || contact.value == item.contact)
    && (bucket.None? || bucket.value == BucketOf(asOf - item.due))
  }

  /** What the first `n` items come to in a column. */
  function Aged(open: seq<OpenDocument>, asOf: int, contact: Option<string>, bucket: Option<Bucket>, n: nat): int
    requires n <= |open|
  {
    if n == 0 then 0
    else Aged(open, asOf, contact, bucket, n - 1) + Flag(Counts(open[n - 1], asOf, contact, bucket), open[n - 1].open)
  }

  ghost predicate IsAged(row: AgingRow, open: seq<OpenDocument>, asOf: int, contact: Option<string>, n: nat)
    requires n <= |open|
  {
    forall bucket :: Column(row, bucket) == Aged(open, asOf, contact, bucket, n)
  }

  /** The contacts of the first `n` items, each once, in the order they come up. */
  function Contacts(open: seq<OpenDocument>, n: nat): (s: seq<string>)
    requires n <= |open|
    ensures forall i :: 0 <= i < n ==> open[i].contact in s
    ensures forall i, j :: 0 <= i < j < |s| ==> s[i] != s[j]
  {
    if n == 0 then []
    else if open[n - 1].contact in Contacts(open, n - 1) then Contacts(open, n - 1)
    else Contacts(open, n - 1) + [open[n - 1].contact]
  }

  ghost predicate Gathered(open: seq<OpenDocument>, asOf: int, byContact: map<string, AgingRow>, n: nat)
    requires n <= |open|
  {
    && (forall c :: c in byContact <==> c in Contacts(open, n))
    && (forall c :: c in byContact ==> IsAged(byContact[c], open, asOf, Some(c), n))
  }

  lemma {:induction false} NewContact(open: seq<OpenDocument>, asOf: int, c: string, bucket: Option<Bucket>, n: nat)
    requires n <= |open| && c !in Contacts(open, n)
    ensures Aged(open, asOf, Some(c), bucket, n) == 0
  {
    if n > 0 { NewContact(open, asOf, c, bucket, n - 1); }
  }

  lemma AgedNext(row: AgingRow, row': AgingRow, open: seq<OpenDocument>, asOf: int, contact: Option<string>, i: nat)
    requires i < |open| && IsAged(row, open, asOf, contact, i) && (contact.None? || contact.value == open[i].contact)
    requires forall bucket ::
      Column(row', bucket)
        == Column(row, bucket) + Flag(bucket.None? || bucket.value == BucketOf(asOf - open[i].due), open[i].open)
    ensures IsAged(row', open, asOf, contact, i + 1)
  {}

  lemma GatheredNext(open: seq<OpenDocument>, asOf: int, was: map<string, AgingRow>, row: AgingRow, i: nat)
    requires i < |open| && Gathered(open, asOf, was, i) && IsAged(row, open, asOf, Some(open[i].contact), i + 1)
    ensures Gathered(open, asOf, was[open[i].contact := row], i + 1)
  {
    var now := was[open[i].contact := row];
    forall c | c in now ensures IsAged(now[c], open, asOf, Some(c), i + 1) {
      if c != open[i].contact { assert IsAged(was[c], open, asOf, Some(c), i); }
    }
  }

  /** A contact's row so far, or an empty one. */
  method RowFor(open: seq<OpenDocument>, asOf: int, byContact: map<string, AgingRow>, c: string, ghost n: nat)
      returns (row: AgingRow)
    requires n <= |open| && Gathered(open, asOf, byContact, n)
    ensures IsAged(row, open, asOf, Some(c), n)
  {
    if c in byContact { return byContact[c]; }
    row := EMPTY_ROW;
    forall bucket ensures Column(row, bucket) == Aged(open, asOf, Some(c), bucket, n) {
      NewContact(open, asOf, c, bucket, n);
    }
  }

  /** `aging`, before the rows are sorted by name: one row for every contact whose total is
      not zero, and the totals of all. */
  method ComputeAging(open: seq<OpenDocument>, asOf: int) returns (rows: map<string, AgingRow>, totals: AgingRow)
    ensures IsAged(totals, open, asOf, None, |open|)
    ensures forall c :: c in rows <==> c in Contacts(open, |open|) && Aged(open, asOf, Some(c), None, |open|) != 0
    ensures forall c :: c in rows ==> IsAged(rows[c], open, asOf, Some(c), |open|)
  {
    var byContact: map<string, AgingRow> := map[];
    totals := EMPTY_ROW;
    for i := 0 to |open|
      invariant IsAged(totals, open, asOf, None, i) && Gathered(open, asOf, byContact, i)
    {
      var days, c := asOf - open[i].due, open[i].contact;
      var was := RowFor(open, asOf, byContact, c, i);
      var row := Add(was, days, open[i].open);
      AgedNext(was, row, open, asOf, Some(c), i);
      GatheredNext(open, asOf, byContact, row, i);
      byContact := byContact[c := row];
      var sum := Add(totals, days, open[i].open);
      AgedNext(totals, sum, open, asOf, None, i);
      totals := sum;
    }
    rows := map c | c in byContact && byContact[c].total != 0 :: byContact[c];
    forall c | c in byContact ensures byContact[c].total == Aged(open, asOf, Some(c), None, |open|) {
      assert Column(byContact[c], None) == byContact[c].total;
    }
  }

  /** A column summed over the first `m` contacts, taking those with or without a total. */
  function ColumnSum(open: seq<OpenDocument>, asOf: int, bucket: Option<Bucket>, contacts: seq<string>, n: nat,
                     m: nat): int
    requires n <= |open| && m <= |contacts|
  {
    if m == 0 then 0
    else ColumnSum(open, asOf, bucket, contacts, n, m - 1) + Aged(open, asOf, Some(contacts[m - 1]), bucket, n)
  }

  lemma {:induction false} ColumnsOneMore(open: seq<OpenDocument>, asOf: int, bucket: Option<Bucket>,
                                          contacts: seq<string>, n: nat, m: nat)
    requires 0 < n <= |open| && m <= |contacts|
    requires forall i, j :: 0 <= i < j < |contacts| ==> contacts[i] != contacts[j]
    ensures ColumnSum(open, asOf, bucket, contacts, n, m)
         == ColumnSum(open, asOf, bucket, contacts, n - 1, m)
            + Flag(open[n - 1].contact in contacts[..m] && Counts(open[n - 1], asOf, None, bucket), open[n - 1].open)
  {
    if m > 0 {
      ColumnsOneMore(open, asOf, bucket, contacts, n, m - 1);
      assert contacts[..m] == contacts[..m - 1] + [contacts[m - 1]];
    }
  }

  lemma {:induction false} ColumnsOfNone(open: seq<OpenDocument>, asOf: int, bucket: Option<Bucket>,
                                         contacts: seq<string>, m: nat)
    requires m <= |contacts|
    ensures ColumnSum(open, asOf, bucket, contacts, 0, m) == 0
  {
    if m > 0 { ColumnsOfNone(open, asOf, bucket, contacts, m - 1); }
  }

  /** Before the zero rows are dropped every column adds up to its total. */
  lemma {:induction false} ColumnsMatch(open: seq<OpenDocument>, asOf: int, bucket: Option<Bucket>,
                                        contacts: seq<string>, n: nat)
    requires n <= |open|
    requires forall i, j :: 0 <= i < j < |contacts| ==> contacts[i] != contacts[j]
    requires forall i :: 0 <= i < n ==> open[i].contact in contacts
    ensures ColumnSum(open, asOf, bucket, contacts, n, |contacts|) == Aged(open, asOf, None, bucket, n)
  {
    if n == 0 {
      ColumnsOfNone(open, asOf, bucket, contacts, |contacts|);
    } else {
      ColumnsMatch(open, asOf, bucket, contacts, n - 1);
      ColumnsOneMore(open, asOf, bucket, contacts, n, |contacts|);
      assert contacts[..|contacts|] == contacts;
    }
  }

  predicate IsKept(open: seq<OpenDocument>, asOf: int, contact: string) {
    Aged(open, asOf, Some(contact), None, |open|) != 0
  }

  /** A column of the rows that are kept (or of those that are dropped). */
  function PartSum(open: seq<OpenDocument>, asOf: int, bucket: Option<Bucket>, contacts: seq<string>, kept: bool,
                   m: nat): int
    requires m <= |contacts|
  {
    if m == 0 then 0
    else
      PartSum(open, asOf, bucket, contacts, kept, m - 1) +
      Flag(IsKept(open, asOf, contacts[m - 1]) == kept, Aged(open, asOf, Some(contacts[m - 1]), bucket, |open|))
  }

  lemma {:induction false} PartsSum(open: seq<OpenDocument>, asOf: int, bucket: Option<Bucket>, contacts: seq<string>,
                                    m: nat)
    requires m <= |contacts|
    ensures PartSum(open, asOf, bucket, contacts, true, m) + PartSum(open, asOf, bucket, contacts, false, m)
         == ColumnSum(open, asOf, bucket, contacts, |open|, m)
  {
    if m > 0 { PartsSum(open, asOf, bucket, contacts, m - 1); }
  }

  lemma {:induction false} DroppedTotal(open: seq<OpenDocument>, asOf: int, contacts: seq<string>, m: nat)
    requires m <= |contacts|
    ensures PartSum(open, asOf, None, contacts, false, m) == 0
  {
    if m > 0 { DroppedTotal(open, asOf, contacts, m - 1); }
  }

  /** A column of the kept rows. */
  function KeptColumn(open: seq<OpenDocument>, asOf: int, bucket: Option<Bucket>): int {
    PartSum(open, asOf, bucket, Contacts(open, |open|), true, |Contacts(open, |open|)|)
  }

  /** A column of the rows that are dropped for a zero total. */
  function DroppedColumn(open: seq<OpenDocument>, asOf: int, bucket: Option<Bucket>): int {
    PartSum(open, asOf, bucket, Contacts(open, |open|), false, |Contacts(open, |open|)|)
  }

  /** The total column always matches; a bucket column is off by what the dropped rows had in it. */
  lemma KeptRowsMatch(open: seq<OpenDocument>, asOf: int, bucket: Option<Bucket>)
    ensures KeptColumn(open, asOf, bucket) == Aged(open, asOf, None, bucket, |open|) - DroppedColumn(open, asOf, bucket)
    ensures bucket.None? ==> DroppedColumn(open, asOf, bucket) == 0
  {
    var contacts := Contacts(open, |open|);
    ColumnsMatch(open, asOf, bucket, contacts, |open|);
    PartsSum(open, asOf, bucket, contacts, |contacts|);
    DroppedTotal(open, asOf, contacts, |contacts|);
  }

  lemma {:induction false} AgedIsOpen(open: seq<OpenDocument>, asOf: int, n: nat)
    requires n <= |open|
    ensures Aged(open, asOf, None, None, n) == SumOpen(open, n)
  {
    if n > 0 { AgedIsOpen(open, asOf, n - 1); }
  }

  /** Aging ties to the control account exactly when the open items do. */
  lemma AgingTies(docs: seq<Document>, book: BookSide, asOf: int)
    requires DistinctIds(docs)
    ensures var open := Rows(docs, book, asOf, |docs|);
      && KeptColumn(open, asOf, None) == Aged(open, asOf, None, None, |open|)
      && Aged(open, asOf, None, None, |open|) ==
          ControlBalance(docs, book, asOf, |docs|) + Stray(docs, book, asOf, |docs|)
  {
    var open := Rows(docs, book, asOf, |docs|);
    OpenItemsTie(docs, book, asOf);
    AgedIsOpen(open, asOf, |open|);
    KeptRowsMatch(open, asOf, None);
  }

  /** A contact that owes 5 from long ago and has 5 to come back today is dropped, and the
      kept rows miss the 5 in either column. */
  lemma DroppedRowShows(open: seq<OpenDocument>, c: string)
    requires open == [OpenDocument("1", Invoice, c, 0, 5, 0, 5), OpenDocument("2", CreditMemo, c, 100, -5, 0, -5)]
    ensures KeptColumn(open, 100, Some(Over90)) == 0 && Aged(open, 100, None, Some(Over90), 2) == 5
    ensures KeptColumn(open, 100, Some(Current)) == 0 && Aged(open, 100, None, Some(Current), 2) == -5
  {
    assert Contacts(open, 1) == [c] && Contacts(open, 2) == [c] && |open| == 2;
    assert Aged(open, 100, Some(c), None, 1) == 5;
    assert [c][0] == c && |[c]| == 1;
    forall bucket ensures KeptColumn(open, 100, bucket) == 0 {
      assert PartSum(open, 100, bucket, [c], true, 0) == 0;
      assert PartSum(open, 100, bucket, [c], true, 1) == 0;
    }
    assert !IsKept(open, 100, c);
    assert Aged(open, 100, None, Some(Over90), 1) == 5 && Aged(open, 100, None, Some(Current), 1) == 0;
  }
}
