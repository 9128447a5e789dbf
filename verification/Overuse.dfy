/** No document is used beyond its total: what the checks of an edit or of applying a credit
    are enough for. `docs` holds the newest version of every document. */
module Overuse {
  import opened Wrappers
  import opened Documents
  import opened OpenItems

  /** 9999-12-31, for "everything saved so far". */
  const FAR_FUTURE := 3652059

  /** The book a kind opens an item on (`book_of`). */
  function BookOf(kind: DocKind): Option<BookSide> {
    if Opens(Receivable, kind).Some? then Some(Receivable)
    else if Opens(Payable, kind).Some? then Some(Payable)
    else None
  }

  /** Everything the first `n` applications record against `id`, links included. */
  function Recorded(apps: seq<Application>, id: string, n: nat): int
    requires n <= |apps|
  {
    if n == 0 then 0 else Recorded(apps, id, n - 1) + Flag(apps[n - 1].target == id, apps[n - 1].amount)
  }

  /** `applied_by_others`: what the settling documents but one record against `id`. */
  function AppliedByOthers(docs: seq<Document>, book: BookSide, id: string, excluding: string, n: nat): int
    requires n <= |docs|
  {
    if n == 0 then 0
    else
      AppliedByOthers(docs, book, id, excluding, n - 1) +
      Flag(docs[n - 1].id != excluding && IsSettling(docs[n - 1], book, FAR_FUTURE),
           Recorded(docs[n - 1].applications, id, |docs[n - 1].applications|))
  }

  method ComputeAppliedByOthers(docs: seq<Document>, book: BookSide, id: string, excluding: string) returns (total: int)
    ensures total == AppliedByOthers(docs, book, id, excluding, |docs|)
  {
    total := 0;
    for i := 0 to |docs|
      invariant total == AppliedByOthers(docs, book, id, excluding, i)
    {
      if docs[i].id != excluding && IsSettling(docs[i], book, FAR_FUTURE) {
        for j := 0 to |docs[i].applications|
          invariant total == AppliedByOthers(docs, book, id, excluding, i) + Recorded(docs[i].applications, id, j)
        {
          if docs[i].applications[j].target == id { total := total + docs[i].applications[j].amount; }
        }
      }
    }
  }

  function RecordedAll(apps: seq<Application>, n: nat): int
    requires n <= |apps|
  {
    if n == 0 then 0 else RecordedAll(apps, n - 1) + apps[n - 1].amount
  }

  /** No document on either book is used beyond its total. */
  predicate NoOveruse(docs: seq<Document>, book: BookSide) {
    forall i :: 0 <= i < |docs| && IsOpener(docs[i], book, FAR_FUTURE) ==>
      Used(docs, book, FAR_FUTURE, docs[i]) <= DocumentTotal(docs[i])
  }

  // ---- Conditions on what documents record ----

  /** An application to a saved document names that document's kind. */
  predicate NamesKinds(apps: seq<Application>, docs: seq<Document>) {
    forall j, i :: 0 <= j < |apps| && 0 <= i < |docs| && apps[j].target == docs[i].id ==>
        apps[j].targetKind == docs[i].kind
  }

  predicate OncePerTarget(apps: seq<Application>) {
    forall i, j :: 0 <= i < j < |apps| ==> apps[i].target != apps[j].target
  }

  predicate Nonnegative(apps: seq<Application>) { forall i :: 0 <= i < |apps| ==> apps[i].amount >= 0 }

  predicate LinksNonnegative(apps: seq<Application>) {
    forall i :: 0 <= i < |apps| && IsContract(apps[i].targetKind) ==> apps[i].amount >= 0
  }

  /** No application draws on a credit. */
  predicate SparesCredits(apps: seq<Application>, book: BookSide) {
    forall i :: 0 <= i < |apps| ==> !IsCredit(book, apps[i].targetKind)
  }

  ghost predicate WellRecorded(doc: Document, docs: seq<Document>, book: BookSide) {
    NamesKinds(doc.applications, docs) && SparesCredits(doc.applications, book)
  }

  ghost predicate AllRecorded(docs: seq<Document>, book: BookSide) {
    forall i :: 0 <= i < |docs| ==> WellRecorded(docs[i], docs, book)
  }

  // ---- Counting ----

  /** What the settling documents but one move to `id`: unlike `applied_by_others`, links are left out. */
  function MovedByOthers(docs: seq<Document>, book: BookSide, id: string, excluding: string, n: nat): int
    requires n <= |docs|
  {
    if n == 0 then 0
    else
      MovedByOthers(docs, book, id, excluding, n - 1) +
      Flag(docs[n - 1].id != excluding && IsSettling(docs[n - 1], book, FAR_FUTURE), AppliedTo(docs[n - 1], id))
  }

  /** What `doc` moves to `id` if it settles. */
  function MovedBy(doc: Document, book: BookSide, id: string): int {
    Flag(IsSettling(doc, book, FAR_FUTURE), AppliedTo(doc, id))
  }

  lemma {:induction false} MovedIsRecorded(apps: seq<Application>, docs: seq<Document>, i: nat, n: nat)
    requires n <= |apps| && i < |docs| && NamesKinds(apps, docs) && !IsContract(docs[i].kind)
    ensures MovedTo(apps, docs[i].id, n) == Recorded(apps, docs[i].id, n)
  {
    if n > 0 { MovedIsRecorded(apps, docs, i, n - 1); }
  }

  lemma {:induction false} NoneRecorded(apps: seq<Application>, id: string, n: nat)
    requires n <= |apps| && forall j :: 0 <= j < n ==> apps[j].target != id
    ensures MovedTo(apps, id, n) == 0
  {
    if n > 0 { NoneRecorded(apps, id, n - 1); }
  }

  /** What moves to a target named once is that application, or nothing for a link. */
  lemma {:induction false} OneRecorded(apps: seq<Application>, j: nat, n: nat)
    requires j < n <= |apps| && NamedOnce(apps, apps[j].target)
    ensures MovedTo(apps, apps[j].target, n) == Flag(!IsContract(apps[j].targetKind), apps[j].amount)
  {
    if j < n - 1 {
      OneRecorded(apps, j, n - 1);
    } else {
      NoneRecorded(apps, apps[j].target, n - 1);
    }
  }

  predicate NamedOnce(apps: seq<Application>, id: string) {
    forall i, j :: 0 <= i < j < |apps| && apps[i].target == id ==> apps[j].target != id
  }

  lemma {:induction false} MovedNonnegative(apps: seq<Application>, id: string, n: nat)
    requires n <= |apps| && Nonnegative(apps)
    ensures MovedTo(apps, id, n) >= 0
  {
    if n > 0 { MovedNonnegative(apps, id, n - 1); }
  }

  lemma {:induction false} MovedAllRecorded(apps: seq<Application>, n: nat)
    requires n <= |apps| && LinksNonnegative(apps)
    ensures MovedAll(apps, n) <= RecordedAll(apps, n)
  {
    if n > 0 { MovedAllRecorded(apps, n - 1); }
  }

  /** What a document is paid is what others move and what document `k` moves. */
  lemma {:induction false} PaidByOthers(docs: seq<Document>, book: BookSide, id: string, k: nat, n: nat)
    requires n <= |docs| && k < |docs| && DistinctIds(docs)
    ensures PaidTo(docs, book, FAR_FUTURE, id, n)
         == MovedByOthers(docs, book, id, docs[k].id, n) + Flag(k < n, MovedBy(docs[k], book, id))
  {
    if n > 0 { PaidByOthers(docs, book, id, k, n - 1); }
  }

  /** Saving a new version of document `k` leaves what the others move. */
  lemma {:induction false} OthersUnchanged(docs: seq<Document>, book: BookSide, id: string, k: nat, doc: Document,
                                           n: nat)
    requires n <= |docs| && k < |docs| && doc.id == docs[k].id
    ensures MovedByOthers(docs[k := doc], book, id, doc.id, n) == MovedByOthers(docs, book, id, doc.id, n)
  {
    if n > 0 { OthersUnchanged(docs, book, id, k, doc, n - 1); }
  }

  /** Where kinds are named rightly, what is recorded against a document that is no contract is what moves. */
  lemma {:induction false} RecordedMoves(docs: seq<Document>, book: BookSide, i: nat, k: nat, doc: Document, n: nat)
    requires n <= |docs| && i < |docs| && k < |docs| && doc.id == docs[k].id && !IsContract(docs[k := doc][i].kind)
    requires AllRecorded(docs[k := doc], book) && DistinctIds(docs)
    ensures AppliedByOthers(docs, book, docs[i].id, doc.id, n) == MovedByOthers(docs, book, docs[i].id, doc.id, n)
  {
    if n > 0 {
      RecordedMoves(docs, book, i, k, doc, n - 1);
      var now := docs[k := doc];
      if n - 1 != k {
        assert WellRecorded(now[n - 1], now, book) && now[n - 1] == docs[n - 1] && now[i].id == docs[i].id;
        MovedIsRecorded(docs[n - 1].applications, now, i, |docs[n - 1].applications|);
      }
    }
  }

  /** Where no application draws on a credit, nothing moves to one. */
  lemma {:induction false} CreditsSpared(docs: seq<Document>, book: BookSide, i: nat, k: nat, doc: Document, n: nat)
    requires n <= |docs| && i < |docs| && k < |docs| && doc.id == docs[k].id && IsCredit(book, docs[k := doc][i].kind)
    requires AllRecorded(docs[k := doc], book) && DistinctIds(docs)
    ensures MovedByOthers(docs, book, docs[i].id, doc.id, n) == 0 && AppliedTo(doc, docs[i].id) == 0
  {
    var now := docs[k := doc];
    SparesCredit(now, book, k, i);
    if n > 0 {
      CreditsSpared(docs, book, i, k, doc, n - 1);
      if n - 1 != k { SparesCredit(now, book, n - 1, i); }
    }
  }

  lemma SparesCredit(docs: seq<Document>, book: BookSide, j: nat, i: nat)
    requires j < |docs| && i < |docs| && AllRecorded(docs, book) && IsCredit(book, docs[i].kind)
    ensures AppliedTo(docs[j], docs[i].id) == 0
  {
    var apps := docs[j].applications;
    assert WellRecorded(docs[j], docs, book);
    forall m | 0 <= m < |apps| ensures apps[m].target != docs[i].id {
      assert !IsCredit(book, apps[m].targetKind);
    }
    NoneRecorded(apps, docs[i].id, |apps|);
  }

  // ---- An edit ----

  /** What `update_document` has checked of the document it saves. */
  predicate EditChecked(docs: seq<Document>, doc: Document) {
    && SelfAccepted(docs, doc)
    && (forall j :: 0 <= j < |doc.applications| ==> ApplicationChecked(docs, doc, doc.applications[j]))
  }

  /** A target that is on a book has room for the application. */
  predicate ApplicationChecked(docs: seq<Document>, doc: Document, a: Application) {
    forall i :: 0 <= i < |docs| && docs[i].id == a.target && BookOf(docs[i].kind).Some? ==>
      AppliedByOthers(docs, BookOf(docs[i].kind).value, a.target, doc.id, |docs|) + a.amount <= DocumentTotal(docs[i])
  }

  /** The target is saved and, unless it is a contract, live and with room for the application. */
  predicate TargetAccepted(docs: seq<Document>, doc: Document, a: Application, i: nat)
    requires i < |docs|
  {
    && docs[i].id == a.target
    && (IsContract(docs[i].kind)
        || (!docs[i].isVoided
            && (BookOf(docs[i].kind).Some? ==>
                  AppliedByOthers(docs, BookOf(docs[i].kind).value, a.target, doc.id, |docs|) + a.amount <=
                      DocumentTotal(docs[i]))))
  }

  predicate ApplicationAccepted(docs: seq<Document>, doc: Document, a: Application) {
    exists i: nat :: i < |docs| && TargetAccepted(docs, doc, a, i)
  }

  predicate SelfAccepted(docs: seq<Document>, doc: Document) {
    BookOf(doc.kind).Some? ==>
      var book := BookOf(doc.kind).value;
      AppliedByOthers(docs, book, doc.id, doc.id, |docs|)
        + Flag(IsCredit(book, doc.kind), RecordedAll(doc.applications, |doc.applications|)) <= DocumentTotal(doc)
  }

  /** The document's own use fits, and every application is accepted. */
  predicate EditPasses(docs: seq<Document>, doc: Document) {
    && SelfAccepted(docs, doc)
    && forall j :: 0 <= j < |doc.applications| ==> ApplicationAccepted(docs, doc, doc.applications[j])
  }

  /** Where a document is, if it is saved (`latest_document`). */
  method Find(docs: seq<Document>, id: string) returns (found: Option<nat>)
    ensures found.Some? ==> found.value < |docs| && docs[found.value].id == id
    ensures found.None? ==> forall i :: 0 <= i < |docs| ==> docs[i].id != id
  {
    for i := 0 to |docs|
      invariant forall j :: 0 <= j < i ==> docs[j].id != id
    {
      if docs[i].id == id { return Some(i); }
    }
    found := None;
  }

  /** The check of one application. */
  method CheckApplication(docs: seq<Document>, doc: Document, a: Application) returns (ok: bool)
    requires DistinctIds(docs)
    ensures ok <==> ApplicationAccepted(docs, doc, a)
  {
    var found := Find(docs, a.target);
    if found.None? { return false; }
    var target := docs[found.value];
    if IsContract(target.kind) {
      assert TargetAccepted(docs, doc, a, found.value);
      return true;
    }
    if target.isVoided { return false; }
    if BookOf(target.kind).None? {
      assert TargetAccepted(docs, doc, a, found.value);
      return true;
    }
    var others := ComputeAppliedByOthers(docs, BookOf(target.kind).value, a.target, doc.id);
    var total := ComputeTotal(target);
    ok := others + a.amount <= total;
    if ok { assert TargetAccepted(docs, doc, a, found.value); }
  }

  /** The check of the document's own use. */
  method CheckSelf(docs: seq<Document>, doc: Document) returns (ok: bool)
    ensures ok <==> SelfAccepted(docs, doc)
  {
    if BookOf(doc.kind).None? { return true; }
    var book := BookOf(doc.kind).value;
    var applied := ComputeAppliedByOthers(docs, book, doc.id, doc.id);
    if IsCredit(book, doc.kind) {
      var own := 0;
      for i := 0 to |doc.applications|
        invariant own == RecordedAll(doc.applications, i)
      {
        own := own + doc.applications[i].amount;
      }
      applied := applied + own;
    }
    var total := ComputeTotal(doc);
    ok := applied <= total;
  }

  /** The checks `update_document` makes of the document it is about to save. */
  method CheckEdit(docs: seq<Document>, doc: Document) returns (ok: bool)
    requires DistinctIds(docs)
    ensures ok <==> EditPasses(docs, doc)
    ensures ok ==> EditChecked(docs, doc)
  {
    ok := CheckSelf(docs, doc);
    if !ok { return; }
    for j := 0 to |doc.applications|
      invariant forall m :: 0 <= m < j ==> ApplicationAccepted(docs, doc, doc.applications[m])
    {
      ok := CheckApplication(docs, doc, doc.applications[j]);
      if !ok { return; }
    }
    forall j | 0 <= j < |doc.applications| ensures ApplicationChecked(docs, doc, doc.applications[j]) {
      AcceptedChecked(docs, doc, doc.applications[j]);
    }
  }

  lemma AcceptedChecked(docs: seq<Document>, doc: Document, a: Application)
    requires DistinctIds(docs) && ApplicationAccepted(docs, doc, a)
    ensures ApplicationChecked(docs, doc, a)
  {
    var i: nat :| i < |docs| && TargetAccepted(docs, doc, a, i);
    forall j | 0 <= j < |docs| && docs[j].id == a.target ensures j == i {}
  }

  /** What document `i` will have been paid or used once `doc` is saved as document `k`. */
  function UseAfter(docs: seq<Document>, k: nat, doc: Document, book: BookSide, i: nat): int
    requires k < |docs| && i < |docs|
  {
    var now := if i == k then doc else docs[i];
    var moved := MovedByOthers(docs, book, now.id, doc.id, |docs|) + MovedBy(doc, book, now.id);
    if IsCredit(book, now.kind) then Flag(IsDrawn(now, book, FAR_FUTURE), AppliedAll(now)) - moved else moved
  }

  predicate HasRoom(docs: seq<Document>, k: nat, doc: Document, book: BookSide, i: nat)
    requires k < |docs| && i < |docs|
  {
    UseAfter(docs, k, doc, book, i) <= DocumentTotal(if i == k then doc else docs[i])
  }

  /** Every document on the book has room for all that the edit moves, all of it together. */
  predicate EditLeavesRoom(docs: seq<Document>, k: nat, doc: Document, book: BookSide)
    requires k < |docs|
  {
    forall i: nat :: i < |docs| && IsOpener(if i == k then doc else docs[i], book, FAR_FUTURE) ==>
      HasRoom(docs, k, doc, book, i)
  }

  lemma {:induction false} ConsumedUnchanged(docs: seq<Document>, k: nat, doc: Document, book: BookSide, i: nat)
    requires k < |docs| && i < |docs| && DistinctIds(docs) && doc.id == docs[k].id
    ensures DistinctIds(docs[k := doc])
    ensures ConsumedBy(docs[k := doc], book, FAR_FUTURE, docs[i].id, |docs|)
         == Flag(IsDrawn(docs[k := doc][i], book, FAR_FUTURE), AppliedAll(docs[k := doc][i]))
    ensures ConsumedBy(docs, book, FAR_FUTURE, docs[i].id, |docs|)
         == Flag(IsDrawn(docs[i], book, FAR_FUTURE), AppliedAll(docs[i]))
  {
    var now := docs[k := doc];
    assert DistinctIds(now) by {
      forall a, b | 0 <= a < b < |now| ensures now[a].id != now[b].id {
        assert now[a].id == docs[a].id && now[b].id == docs[b].id;
      }
    }
    ConsumedIsOwn(now, book, FAR_FUTURE, i, |docs|);
    ConsumedIsOwn(docs, book, FAR_FUTURE, i, |docs|);
  }

  lemma UsedAfterEdit(docs: seq<Document>, k: nat, doc: Document, book: BookSide, i: nat)
    requires k < |docs| && i < |docs| && DistinctIds(docs) && doc.id == docs[k].id
    ensures Used(docs[k := doc], book, FAR_FUTURE, docs[k := doc][i]) == UseAfter(docs, k, doc, book, i)
  {
    ConsumedUnchanged(docs, k, doc, book, i);
    PaidByOthers(docs[k := doc], book, docs[i].id, k, |docs|);
    OthersUnchanged(docs, book, docs[i].id, k, doc, |docs|);
  }

  /** An edit leaves no document used beyond its total exactly when every document has room for all that the edit
      moves, which the documents before the edit tell. */
  lemma EditKeepsIffRoom(docs: seq<Document>, k: nat, doc: Document, book: BookSide)
    requires k < |docs| && DistinctIds(docs) && doc.id == docs[k].id
    ensures NoOveruse(docs[k := doc], book) <==> EditLeavesRoom(docs, k, doc, book)
  {
    var now := docs[k := doc];
    forall i: nat | i < |docs| ensures Used(now, book, FAR_FUTURE, now[i]) == UseAfter(docs, k, doc, book, i) {
      UsedAfterEdit(docs, k, doc, book, i);
    }
    if !EditLeavesRoom(docs, k, doc, book) {
      var i: nat :| i < |docs| && IsOpener(if i == k then doc else docs[i], book, FAR_FUTURE) &&
          !HasRoom(docs, k, doc, book, i);
      assert IsOpener(now[i], book, FAR_FUTURE);
    }
  }

  /** What the checks of an edit do not cover. The credit that is edited is at risk when less than nothing is applied
      against it or a link of its own is negative, and another credit when the edit draws more on it than before. Any
      other document is at risk when the edit names it twice or takes a negative application back, or when the links
      recorded against it come to less than nothing. */
  predicate AtRisk(docs: seq<Document>, k: nat, doc: Document, book: BookSide, i: nat)
    requires k < |docs| && i < |docs|
  {
    var now := if i == k then doc else docs[i];
    var recorded := AppliedByOthers(docs, book, now.id, doc.id, |docs|);
    var moved := MovedByOthers(docs, book, now.id, doc.id, |docs|);
    if IsCredit(book, now.kind) then
      if i == k then
        || recorded + moved + MovedBy(doc, book, doc.id) < 0
        || AppliedAll(doc) > RecordedAll(doc.applications, |doc.applications|)
      else MovedBy(doc, book, now.id) < MovedBy(docs[k], book, now.id)
    else
      || recorded < moved
      || (i != k && (!NamedOnce(doc.applications, now.id) || MovedBy(docs[k], book, now.id) < 0))
  }

  predicate RiskHasRoom(docs: seq<Document>, k: nat, doc: Document, book: BookSide)
    requires k < |docs|
  {
    forall i: nat :: i < |docs| && IsOpener(if i == k then doc else docs[i], book, FAR_FUTURE) ==>
      AtRisk(docs, k, doc, book, i) ==> HasRoom(docs, k, doc, book, i)
  }

  /** A document that is not at risk has room once the checks have passed. */
  lemma CheckedHasRoom(docs: seq<Document>, k: nat, doc: Document, book: BookSide, i: nat)
    requires k < |docs| && i < |docs| && DistinctIds(docs) && doc.id == docs[k].id
    requires EditChecked(docs, doc) && NoOveruse(docs, book)
    requires IsOpener(if i == k then doc else docs[i], book, FAR_FUTURE) && !AtRisk(docs, k, doc, book, i)
    ensures HasRoom(docs, k, doc, book, i)
  {
    if i == k {
      assert BookOf(doc.kind) == Some(book);
    } else {
      PaidByOthers(docs, book, docs[i].id, k, |docs|);
      ConsumedUnchanged(docs, k, doc, book, i);
      assert Used(docs, book, FAR_FUTURE, docs[i]) <= DocumentTotal(docs[i]);
      if !IsCredit(book, docs[i].kind) { NamedHasRoom(docs, k, doc, book, i); }
    }
  }

  lemma NamedHasRoom(docs: seq<Document>, k: nat, doc: Document, book: BookSide, i: nat)
    requires k < |docs| && i < |docs| && i != k && EditChecked(docs, doc) && IsOpener(docs[i], book, FAR_FUTURE)
    requires !IsCredit(book, docs[i].kind) && !AtRisk(docs, k, doc, book, i)
    requires MovedByOthers(docs, book, docs[i].id, doc.id, |docs|) <= DocumentTotal(docs[i])
    ensures HasRoom(docs, k, doc, book, i)
  {
    var id := docs[i].id;
    if j :| 0 <= j < |doc.applications| && doc.applications[j].target == id {
      OneRecorded(doc.applications, j, |doc.applications|);
      assert ApplicationChecked(docs, doc, doc.applications[j]) && BookOf(docs[i].kind) == Some(book);
    } else {
      NoneRecorded(doc.applications, id, |doc.applications|);
    }
  }

  /** The checks of an edit keep every document within its total but those at risk, and those exactly when they have
      room. */
  lemma CheckedEditKeepsIff(docs: seq<Document>, k: nat, doc: Document, book: BookSide)
    requires k < |docs| && DistinctIds(docs) && doc.id == docs[k].id
    requires EditChecked(docs, doc) && NoOveruse(docs, book)
    ensures NoOveruse(docs[k := doc], book) <==> RiskHasRoom(docs, k, doc, book)
  {
    forall i: nat | i < |docs| && IsOpener(if i == k then doc else docs[i], book, FAR_FUTURE) &&
        !AtRisk(docs, k, doc, book, i)
      ensures HasRoom(docs, k, doc, book, i)
    {
      CheckedHasRoom(docs, k, doc, book, i);
    }
    EditKeepsIffRoom(docs, k, doc, book);
  }

  /** So an edit that passes its checks leaves no document used beyond its total in a book where kinds are named
      rightly and no application draws on a credit, when it names each target once, takes no negative application
      back and, from a credit, links nothing below zero. */
  lemma EditKeepsNoOveruse(docs: seq<Document>, k: nat, doc: Document, book: BookSide)
    requires k < |docs| && DistinctIds(docs) && doc.id == docs[k].id
    requires EditChecked(docs, doc) && NoOveruse(docs, book)
    requires AllRecorded(docs, book) && AllRecorded(docs[k := doc], book)
    requires OncePerTarget(doc.applications) && Nonnegative(docs[k].applications)
    requires IsCredit(book, doc.kind) ==> LinksNonnegative(doc.applications)
    ensures NoOveruse(docs[k := doc], book)
  {
    forall i: nat | i < |docs| && IsOpener(if i == k then doc else docs[i], book, FAR_FUTURE)
      ensures !AtRisk(docs, k, doc, book, i)
    {
      PlainNotAtRisk(docs, k, doc, book, i);
    }
    CheckedEditKeepsIff(docs, k, doc, book);
  }

  lemma PlainNotAtRisk(docs: seq<Document>, k: nat, doc: Document, book: BookSide, i: nat)
    requires k < |docs| && i < |docs| && DistinctIds(docs) && doc.id == docs[k].id
    requires AllRecorded(docs, book) && AllRecorded(docs[k := doc], book)
    requires OncePerTarget(doc.applications) && Nonnegative(docs[k].applications)
    requires IsCredit(book, doc.kind) ==> LinksNonnegative(doc.applications)
    requires IsOpener(if i == k then doc else docs[i], book, FAR_FUTURE)
    ensures !AtRisk(docs, k, doc, book, i)
  {
    RecordedMoves(docs, book, i, k, doc, |docs|);
    if !IsCredit(book, docs[k := doc][i].kind) {
      MovedNonnegative(docs[k].applications, docs[i].id, |docs[k].applications|);
    } else {
      CreditsSpared(docs, book, i, k, doc, |docs|);
      if i == k {
        MovedAllRecorded(doc.applications, |doc.applications|);
      } else {
        SparesCredit(docs, book, k, i);
      }
    }
  }

  /** Each application is checked alone, so two to one target can pass together. */
  lemma TwoToOneTarget(invoice: Document, was: Document, doc: Document)
    requires invoice == Document("i", Invoice, None, 1, None, None, [DocLine(Item, 10)], None, [], 0, false, None)
    requires was == Document("p", Payment, None, 1, None, None, [], None, [], 12, false, None)
    requires doc == was.(applications := [Application("i", Invoice, 6), Application("i", Invoice, 6)], unapplied := 0)
    ensures NoOveruse([invoice, was], Receivable) && EditChecked([invoice, was], doc)
    ensures !NoOveruse([invoice, doc], Receivable)
  {
    var docs, now := [invoice, was], [invoice, doc];
    assert LinesWorth(invoice.lines, 0) == 0 && DocumentTotal(invoice) == 10;
    assert PaidTo(docs, Receivable, FAR_FUTURE, "i", 1) == 0;
    assert MovedTo(was.applications, "i", 0) == 0;
    assert AppliedByOthers(docs, Receivable, "i", "p", 1) == 0;
    assert MovedTo(doc.applications, "i", 1) == 6;
    assert PaidTo(now, Receivable, FAR_FUTURE, "i", 1) == 0;
    assert Used(now, Receivable, FAR_FUTURE, now[0]) == 12;
  }

  /** An invoice of 100, a payment that draws 6 on a credit of 10, and the credit before and after it is edited to
      apply all it has to the invoice. */
  predicate DrawnBook(invoice: Document, payment: Document, was: Document, doc: Document) {
    && invoice == Document("i", Invoice, None, 1, None, None, [DocLine(Item, 100)], None, [], 0, false, None)
    && payment ==
       Document("p", Payment, None, 1, None, None, [], None, [Application("c", CreditMemo, -6)], 0, false, None)
    && was == Document("c", CreditMemo, None, 1, None, None, [DocLine(Item, 10)], None, [], 0, false, None)
    && doc == was.(applications := [Application("i", Invoice, 10)])
  }

  lemma DrawnSums(docs: seq<Document>, doc: Document)
    requires |docs| == 3 && DrawnBook(docs[0], docs[1], docs[2], doc)
    ensures DocumentTotal(docs[0]) == 100 && DocumentTotal(docs[2]) == DocumentTotal(doc) == 10
    ensures AppliedTo(docs[1], "c") == Recorded(docs[1].applications, "c", 1) == -6
    ensures AppliedTo(docs[1], "i") == Recorded(docs[1].applications, "i", 1) == 0
    ensures AppliedAll(docs[2]) == 0 && AppliedAll(doc) == RecordedAll(doc.applications, 1) == 10
    ensures AppliedTo(doc, "c") == 0
  {
    assert LinesWorth(docs[0].lines, 0) == 0 && LinesWorth(docs[2].lines, 0) == 0;
    assert MovedTo(docs[1].applications, "c", 0) == 0 && MovedTo(docs[1].applications, "i", 0) == 0;
    assert Recorded(docs[1].applications, "c", 0) == 0 && Recorded(docs[1].applications, "i", 0) == 0;
    assert MovedTo(doc.applications, "c", 0) == 0 && RecordedAll(doc.applications, 0) == 0;
    assert MovedAll(doc.applications, 0) == 0 && MovedAll(docs[2].applications, 0) == 0;
  }

  /** A payment draws on a credit with a negative amount, and the check of the credit adds that draw to what the
      credit applies where the open items take it away: 16 of 10 passes as 4. */
  lemma DrawnCreditOverused(invoice: Document, payment: Document, was: Document, doc: Document)
    requires DrawnBook(invoice, payment, was, doc)
    ensures NoOveruse([invoice, payment, was], Receivable) && EditChecked([invoice, payment, was], doc)
    ensures AtRisk([invoice, payment, was], 2, doc, Receivable, 2)
    ensures UseAfter([invoice, payment, was], 2, doc, Receivable, 2) == 16 && DocumentTotal(doc) == 10
    ensures !NoOveruse([invoice, payment, doc], Receivable)
  {
    var docs := [invoice, payment, was];
    DrawnSums(docs, doc);
    ThreePaid(docs, Receivable, "c", "c");
    ThreePaid(docs, Receivable, "i", "c");
    DrawnBefore(docs, doc);
    EditKeepsIffRoom(docs, 2, doc, Receivable);
    assert docs[2 := doc] == [invoice, payment, doc];
    assert !HasRoom(docs, 2, doc, Receivable, 2);
  }

  lemma DrawnBefore(docs: seq<Document>, doc: Document)
    requires |docs| == 3 && DrawnBook(docs[0], docs[1], docs[2], doc)
    ensures NoOveruse(docs, Receivable)
  {
    DrawnSums(docs, doc);
    ThreePaid(docs, Receivable, "c", "c");
    ThreePaid(docs, Receivable, "i", "c");
    ConsumedUnchanged(docs, 2, doc, Receivable, 2);
  }

  /** A payment may draw any amount on a credit: the check of a target bounds what is applied from above only. */
  lemma DrawBeyondCredit(credit: Document, was: Document, doc: Document)
    requires credit == Document("c", CreditMemo, None, 1, None, None, [DocLine(Item, 10)], None, [], 0, false, None)
    requires was == Document("p", Payment, None, 1, None, None, [], None, [], 0, false, None)
    requires doc == was.(applications := [Application("c", CreditMemo, -100)])
    ensures NoOveruse([credit, was], Receivable) && EditChecked([credit, was], doc)
    ensures OncePerTarget(doc.applications) && Nonnegative(was.applications)
    ensures AtRisk([credit, was], 1, doc, Receivable, 0) && UseAfter([credit, was], 1, doc, Receivable, 0) == 100
    ensures !NoOveruse([credit, doc], Receivable)
  {
    var docs := [credit, was];
    assert LinesWorth(credit.lines, 0) == 0 && DocumentTotal(credit) == 10;
    assert MovedTo(doc.applications, "c", 0) == 0 && MovedTo(credit.applications, "c", 0) == 0;
    assert MovedTo(was.applications, "c", 0) == 0 && Recorded(credit.applications, "c", 0) == 0;
    assert MovedAll(credit.applications, 0) == 0;
    assert PaidTo(docs, Receivable, FAR_FUTURE, "c", 1) == 0 == PaidTo(docs, Receivable, FAR_FUTURE, "c", 0);
    assert AppliedByOthers(docs, Receivable, "c", "p", 1) == 0 == AppliedByOthers(docs, Receivable, "c", "p", 0);
    assert MovedByOthers(docs, Receivable, "c", "p", 1) == 0 == MovedByOthers(docs, Receivable, "c", "p", 0);
    ConsumedUnchanged(docs, 1, doc, Receivable, 0);
    EditKeepsIffRoom(docs, 1, doc, Receivable);
    assert docs[1 := doc] == [credit, doc];
    assert !HasRoom(docs, 1, doc, Receivable, 0);
  }

  /** The sums over a book of three, one by one. */
  lemma ThreePaid(docs: seq<Document>, book: BookSide, id: string, but: string)
    requires |docs| == 3
    ensures PaidTo(docs, book, FAR_FUTURE, id, 3)
         == MovedBy(docs[0], book, id) + MovedBy(docs[1], book, id) + MovedBy(docs[2], book, id)
    ensures MovedByOthers(docs, book, id, but, 3)
         == Flag(docs[0].id != but, MovedBy(docs[0], book, id)) + Flag(docs[1].id != but, MovedBy(docs[1], book, id))
            + Flag(docs[2].id != but, MovedBy(docs[2], book, id))
    ensures AppliedByOthers(docs, book, id, but, 3)
         == RecordedBy(docs[0], book, id, but) + RecordedBy(docs[1], book, id, but) + RecordedBy(docs[2], book, id, but)
  {
    assert PaidTo(docs, book, FAR_FUTURE, id, 0) == 0 && MovedByOthers(docs, book, id, but, 0) == 0;
    assert PaidTo(docs, book, FAR_FUTURE, id, 1) == MovedBy(docs[0], book, id);
    assert MovedByOthers(docs, book, id, but, 1) == Flag(docs[0].id != but, MovedBy(docs[0], book, id));
    assert AppliedByOthers(docs, book, id, but, 0) == 0;
    assert AppliedByOthers(docs, book, id, but, 1) == RecordedBy(docs[0], book, id, but);
    assert AppliedByOthers(docs, book, id, but, 2)
        == RecordedBy(docs[0], book, id, but) + RecordedBy(docs[1], book, id, but);
  }

  /** What one document records against `id`, unless it is `but`. */
  function RecordedBy(doc: Document, book: BookSide, id: string, but: string): int {
    Flag(doc.id != but && IsSettling(doc, book, FAR_FUTURE), Recorded(doc.applications, id, |doc.applications|))
  }

  // ---- Applying a credit ----

  /** The first of the first `n` applications that is to `target`. */
  function FindTarget(apps: seq<Application>, target: string, n: nat): (found: Option<nat>)
    requires n <= |apps|
    ensures found.Some? ==> found.value < n && apps[found.value].target == target
    ensures found.None? ==> forall j :: 0 <= j < n ==> apps[j].target != target
  {
    if n == 0 then None
    else if FindTarget(apps, target, n - 1).Some? then FindTarget(apps, target, n - 1)
    else if apps[n - 1].target == target then Some(n - 1)
    else None
  }

  /** The open amount of the first row called `id`, or nothing. */
  function OpenOf(rows: seq<OpenDocument>, id: string, n: nat): int
    requires n <= |rows|
  {
    if n == 0 then 0
    else if exists j :: 0 <= j < n - 1 && rows[j].id == id then OpenOf(rows, id, n - 1)
    else Flag(rows[n - 1].id == id, rows[n - 1].open)
  }

  method FindOpen(rows: seq<OpenDocument>, id: string) returns (open: int)
    ensures open == OpenOf(rows, id, |rows|)
  {
    for i := 0 to |rows|
      invariant forall j :: 0 <= j < i ==> rows[j].id != id
      invariant OpenOf(rows, id, i) == 0
    {
      if rows[i].id == id {
        FirstStays(rows, id, i, |rows|);
        return rows[i].open;
      }
    }
    open := 0;
  }

  lemma {:induction false} FirstStays(rows: seq<OpenDocument>, id: string, i: nat, n: nat)
    requires i < n <= |rows| && rows[i].id == id && forall j :: 0 <= j < i ==> rows[j].id != id
    ensures OpenOf(rows, id, n) == rows[i].open
  {
    if i < n - 1 { FirstStays(rows, id, i, n - 1); }
  }

  lemma {:induction false} OpenOfPrefix(rows: seq<OpenDocument>, row: OpenDocument, id: string, n: nat)
    requires n <= |rows|
    ensures OpenOf(rows + [row], id, n) == OpenOf(rows, id, n)
  {
    if n > 0 {
      OpenOfPrefix(rows, row, id, n - 1);
      assert forall j :: 0 <= j < n - 1 ==> (rows + [row])[j] == rows[j];
    }
  }

  /** A document's row shows its open amount; a document without a row has nothing open. */
  lemma {:induction false} OpenOfRow(docs: seq<Document>, book: BookSide, asOf: int, i: nat, n: nat)
    requires n <= |docs| && i < |docs| && DistinctIds(docs)
    ensures var rows := Rows(docs, book, asOf, n);
      OpenOf(rows, docs[i].id, |rows|) == Flag(i < n, OpenAmount(docs, book, asOf, docs[i]))
  {
    if n > 0 {
      OpenOfRow(docs, book, asOf, i, n - 1);
      var rows, row := Rows(docs, book, asOf, n - 1), RowOf(docs, book, asOf, docs[n - 1]);
      if OpenAmount(docs, book, asOf, docs[n - 1]) != 0 {
        if i == n - 1 {
          NotYetRow(docs, book, asOf, i, n - 1);
          assert forall j :: 0 <= j < |rows| ==> (rows + [row])[j] == rows[j];
        } else {
          LastOther(rows, row, docs[i].id);
        }
      }
    }
  }

  lemma {:induction false} NotYetRow(docs: seq<Document>, book: BookSide, asOf: int, i: nat, n: nat)
    requires n <= i < |docs| && DistinctIds(docs)
    ensures forall j :: 0 <= j < |Rows(docs, book, asOf, n)| ==> Rows(docs, book, asOf, n)[j].id != docs[i].id
  {
    if n > 0 { NotYetRow(docs, book, asOf, i, n - 1); }
  }

  lemma LastOther(rows: seq<OpenDocument>, row: OpenDocument, id: string)
    requires row.id != id
    ensures OpenOf(rows + [row], id, |rows| + 1) == OpenOf(rows, id, |rows|)
  {
    OpenOfPrefix(rows, row, id, |rows|);
    var all := rows + [row];
    if !(exists j :: 0 <= j < |rows| && all[j].id == id) {
      forall j | 0 <= j < |rows| ensures rows[j].id != id { assert all[j] == rows[j]; }
      NoRow(rows, id, |rows|);
    }
  }

  lemma {:induction false} NoRow(rows: seq<OpenDocument>, id: string, n: nat)
    requires n <= |rows| && forall j :: 0 <= j < |rows| ==> rows[j].id != id
    ensures OpenOf(rows, id, n) == 0
  {
    if n > 0 { NoRow(rows, id, n - 1); }
  }

  /** The applications with `amount` more to `target`. */
  function WithMore(apps: seq<Application>, target: string, kind: DocKind, amount: int): seq<Application> {
    match FindTarget(apps, target, |apps|)
    case Some(j) => apps[j := apps[j].(amount := apps[j].amount + amount)]
    case None => apps + [Application(target, kind, amount)]
  }

  method AddToTarget(apps: seq<Application>, target: string, kind: DocKind, amount: int)
      returns (more: seq<Application>)
    ensures more == WithMore(apps, target, kind, amount)
  {
    var i := 0;
    while i < |apps| && apps[i].target != target
      invariant 0 <= i <= |apps| && FindTarget(apps, target, i).None?
    {
      i := i + 1;
    }
    if i < |apps| {
      FoundFirst(apps, target, i, |apps|);
      more := apps[i := apps[i].(amount := apps[i].amount + amount)];
    } else {
      more := apps + [Application(target, kind, amount)];
    }
  }

  lemma {:induction false} FoundFirst(apps: seq<Application>, target: string, i: nat, n: nat)
    requires i < n <= |apps| && FindTarget(apps, target, i).None? && apps[i].target == target
    ensures FindTarget(apps, target, n) == Some(i)
  {
    if i < n - 1 { FoundFirst(apps, target, i, n - 1); }
  }

  lemma {:induction false} MoreAt(apps: seq<Application>, j: nat, more: Application, id: string, n: nat)
    requires n <= |apps| && j < |apps| && more.target == apps[j].target && more.targetKind == apps[j].targetKind
    ensures var added := Flag(j < n && !IsContract(more.targetKind), more.amount - apps[j].amount);
      && MovedTo(apps[j := more], id, n) == MovedTo(apps, id, n) + Flag(id == more.target, added)
      && MovedAll(apps[j := more], n) == MovedAll(apps, n) + added
  {
    if n > 0 { MoreAt(apps, j, more, id, n - 1); }
  }

  lemma {:induction false} MovedPrefix(apps: seq<Application>, a: Application, id: string, n: nat)
    requires n <= |apps|
    ensures MovedTo(apps + [a], id, n) == MovedTo(apps, id, n) && MovedAll(apps + [a], n) == MovedAll(apps, n)
  {
    if n > 0 { MovedPrefix(apps, a, id, n - 1); }
  }

  /** The first application to `target` is recorded as a link to a contract. */
  predicate IsLinked(apps: seq<Application>, target: string) {
    var found := FindTarget(apps, target, |apps|);
    found.Some? && IsContract(apps[found.value].targetKind)
  }

  /** The target gets `amount` more, unless it is linked, and nothing else does. */
  lemma MovedWithMore(apps: seq<Application>, target: string, kind: DocKind, amount: int, id: string)
    requires !IsContract(kind)
    ensures var more := WithMore(apps, target, kind, amount);
      && MovedTo(more, id, |more|)
         == MovedTo(apps, id, |apps|) + Flag(id == target && !IsLinked(apps, target), amount)
      && MovedAll(more, |more|) == MovedAll(apps, |apps|) + Flag(!IsLinked(apps, target), amount)
  {
    match FindTarget(apps, target, |apps|)
    case Some(j) => MoreAt(apps, j, apps[j].(amount := apps[j].amount + amount), id, |apps|);
    case None => MovedPrefix(apps, Application(target, kind, amount), id, |apps|);
  }

  /** Saving document `k` with other applications changes what `id` is paid by the difference. */
  lemma {:induction false} PaidAfter(docs: seq<Document>, book: BookSide, k: nat, doc: Document, id: string, n: nat)
    requires n <= |docs| && k < |docs| && (IsSettling(doc, book, FAR_FUTURE) <==> IsSettling(docs[k], book, FAR_FUTURE))
    ensures PaidTo(docs[k := doc], book, FAR_FUTURE, id, n)
         == PaidTo(docs, book, FAR_FUTURE, id, n)
            + Flag(k < n && IsSettling(doc, book, FAR_FUTURE), AppliedTo(doc, id) - AppliedTo(docs[k], id))
  {
    if n > 0 { PaidAfter(docs, book, k, doc, id, n - 1); }
  }

  function Size(x: int): int { if x < 0 then -x else x }

  /** What `apply_credit` has checked: the credit and its target are on the book, and `amount`
      is no more than either row shows open. */
  ghost predicate CreditFit(docs: seq<Document>, book: BookSide, k: nat, t: nat, amount: int)
    requires k < |docs| && t < |docs|
  {
    && DistinctIds(docs) && IsOpener(docs[k], book, FAR_FUTURE) && IsCredit(book, docs[k].kind)
    && IsOpener(docs[t], book, FAR_FUTURE) && !IsCredit(book, docs[t].kind)
    && 0 < amount <= Size(OpenAmount(docs, book, FAR_FUTURE, docs[k]))
    && amount <= Size(OpenAmount(docs, book, FAR_FUTURE, docs[t]))
  }

  function Credited(docs: seq<Document>, k: nat, t: nat, amount: int): Document
    requires k < |docs| && t < |docs|
  {
    docs[k].(applications := WithMore(docs[k].applications, docs[t].id, docs[t].kind, amount))
  }

  /** Applying a credit uses the credit and its target by `amount` more and touches no other document; and added to
      a link it moves nothing. */
  lemma CreditUses(docs: seq<Document>, book: BookSide, k: nat, t: nat, amount: int, i: nat)
    requires k < |docs| && t < |docs| && i < |docs| && CreditFit(docs, book, k, t, amount)
    requires IsOpener(docs[i], book, FAR_FUTURE)
    ensures var now := docs[k := Credited(docs, k, t, amount)];
      Used(now, book, FAR_FUTURE, now[i])
         == Used(docs, book, FAR_FUTURE, docs[i])
            + Flag((i == k || i == t) && !IsLinked(docs[k].applications, docs[t].id), amount)
  {
    var doc := Credited(docs, k, t, amount);
    MovedWithMore(docs[k].applications, docs[t].id, docs[t].kind, amount, docs[i].id);
    PaidAfter(docs, book, k, doc, docs[i].id, |docs|);
    ConsumedUnchanged(docs, k, doc, book, i);
    assert docs[i].id == docs[t].id <==> i == t;
  }

  /** A credit that passes its checks leaves no document used beyond its total exactly when none was: the size of a
      row tells what is open only as long as no document is used beyond its total. */
  lemma CreditKeepsNoOveruse(docs: seq<Document>, book: BookSide, k: nat, t: nat, amount: int)
    requires k < |docs| && t < |docs| && CreditFit(docs, book, k, t, amount)
    ensures NoOveruse(docs[k := Credited(docs, k, t, amount)], book) <==> NoOveruse(docs, book)
  {
    var now := docs[k := Credited(docs, k, t, amount)];
    forall i | 0 <= i < |now| && IsOpener(docs[i], book, FAR_FUTURE)
      ensures Used(now, book, FAR_FUTURE, now[i])
           == Used(docs, book, FAR_FUTURE, docs[i])
              + Flag((i == k || i == t) && !IsLinked(docs[k].applications, docs[t].id), amount)
    {
      CreditUses(docs, book, k, t, amount, i);
    }
    assert forall i :: 0 <= i < |docs| ==> DocumentTotal(now[i]) == DocumentTotal(docs[i]);
    if NoOveruse(now, book) {
      forall i | 0 <= i < |docs| && IsOpener(docs[i], book, FAR_FUTURE)
        ensures Used(docs, book, FAR_FUTURE, docs[i]) <= DocumentTotal(docs[i])
      {
        assert IsOpener(now[i], book, FAR_FUTURE);
      }
    } else {
      var i :| 0 <= i < |now| && IsOpener(now[i], book, FAR_FUTURE) &&
          Used(now, book, FAR_FUTURE, now[i]) > DocumentTotal(now[i]);
      assert IsOpener(docs[i], book, FAR_FUTURE);
    }
  }

  /** On a book the credit is not on, nothing changes. */
  lemma OtherBookKept(docs: seq<Document>, book: BookSide, k: nat, doc: Document)
    requires k < |docs| && DistinctIds(docs) && !Settles(book, doc.kind)
    requires doc == docs[k].(applications := doc.applications)
    ensures NoOveruse(docs[k := doc], book) <==> NoOveruse(docs, book)
  {
    var now := docs[k := doc];
    forall i | 0 <= i < |docs|
      ensures IsOpener(now[i], book, FAR_FUTURE) <==> IsOpener(docs[i], book, FAR_FUTURE)
      ensures Used(now, book, FAR_FUTURE, now[i]) == Used(docs, book, FAR_FUTURE, docs[i])
      ensures DocumentTotal(now[i]) == DocumentTotal(docs[i])
    {
      PaidAfter(docs, book, k, doc, docs[i].id, |docs|);
      ConsumedUnchanged(docs, k, doc, book, i);
    }
    if NoOveruse(now, book) {
      forall i | 0 <= i < |docs| && IsOpener(docs[i], book, FAR_FUTURE)
        ensures Used(docs, book, FAR_FUTURE, docs[i]) <= DocumentTotal(docs[i])
      {
        assert IsOpener(now[i], book, FAR_FUTURE);
      }
    }
  }

  /** An invoice paid 14 of 10 reads as 4 open, so a credit of 5 may be applied to it up to 4 and raises what it is
      overpaid by. */
  lemma OverpaidTakesCredit(invoice: Document, payment: Document, credit: Document)
    requires invoice == Document("i", Invoice, None, 1, None, None, [DocLine(Item, 10)], None, [], 0, false, None)
    requires payment ==
        Document("p", Payment, None, 1, None, None, [], None, [Application("i", Invoice, 14)], 0, false, None)
    requires credit == Document("c", CreditMemo, None, 1, None, None, [DocLine(Item, 5)], None, [], 0, false, None)
    ensures var docs := [invoice, payment, credit];
      && Used(docs, Receivable, FAR_FUTURE, invoice) == 14 && CreditFit(docs, Receivable, 2, 0, 4)
      && Used(docs[2 := Credited(docs, 2, 0, 4)], Receivable, FAR_FUTURE, invoice) == 18
  {
    var docs := [invoice, payment, credit];
    assert LinesWorth(invoice.lines, 0) == 0 && LinesWorth(credit.lines, 0) == 0 && DocumentTotal(invoice) == 10;
    assert MovedTo(payment.applications, "c", 0) == 0 && MovedTo(payment.applications, "i", 0) == 0;
    assert MovedAll(credit.applications, 0) == 0 && FindTarget(credit.applications, "i", 0).None?;
    ThreePaid(docs, Receivable, "c", "c");
    ThreePaid(docs, Receivable, "i", "c");
    ConsumedUnchanged(docs, 2, credit, Receivable, 2);
    CreditUses(docs, Receivable, 2, 0, 4, 0);
  }
}
