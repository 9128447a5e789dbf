/** What of a document stands in the journal, and what a revision adds to it, told entry by entry. */
module Postings {
  import opened Wrappers
  import opened Documents
  import opened Journal

  /** Entry `i` is the document's own and nothing of the document undoes it. */
  predicate Stands(entries: Entries, id: string, i: nat) {
    && i < |entries| && entries[i].sourceId == id && entries[i].reversalOf == None
    && forall j :: 0 <= j < |entries| && entries[j].sourceId == id ==> entries[j].reversalOf != Some(i)
  }

  lemma {:induction false} ReversedAre(entries: Entries, id: string, n: nat)
    requires n <= |entries|
    ensures forall i :: i in ReversedIds(entries, id, n) <==>
              exists j :: 0 <= j < n && entries[j].sourceId == id && entries[j].reversalOf == Some(i)
  {
    if n > 0 { ReversedAre(entries, id, n - 1); }
  }

  /** The live entries of a document are those that stand. */
  lemma LiveStands(entries: Entries, id: string)
    ensures forall i: nat :: i in LiveEntries(entries, id) <==> Stands(entries, id, i)
  {
    ReversedAre(entries, id, |entries|);
    forall i: nat
      ensures i in LiveEntries(entries, id) <==> Stands(entries, id, i)
    {
      if i < |entries| && entries[i].sourceId == id { assert IsLive(entries, id, i) <==> Stands(entries, id, i); }
    }
  }

  /** Nothing of a document stands. */
  ghost predicate NoneStands(entries: Entries, id: string) { forall i: nat :: !Stands(entries, id, i) }

  /** Exactly one entry of a document stands, and `e` says its date, memo, type, flag and lines. */
  ghost predicate OneStands(entries: Entries, id: string, e: JournalEntry) {
    exists i: nat :: StandsAlone(entries, id, i) && entries[i].date == e.date && entries[i].memo == e.memo &&
      entries[i].sourceType == e.sourceType && entries[i].isFlagged == e.isFlagged && entries[i].lines == e.lines
  }

  ghost predicate StandsAlone(entries: Entries, id: string, i: nat) {
    Stands(entries, id, i) && forall j: nat :: Stands(entries, id, j) ==> j == i
  }

  lemma NoneLiveStands(entries: Entries, id: string)
    ensures LiveEntries(entries, id) == [] <==> NoneStands(entries, id)
  {
    LiveStands(entries, id);
    if LiveEntries(entries, id) != [] {
      var i := LiveEntries(entries, id)[0];
      assert i in LiveEntries(entries, id);
      assert Stands(entries, id, i);
    }
  }

  lemma OneLiveStands(entries: Entries, id: string, e: JournalEntry)
    ensures var live := LiveEntries(entries, id);
            |live| == 1 && SamePosting(entries[live[0]], e) <==> OneStands(entries, id, e)
  {
    LiveStands(entries, id);
    var live := LiveEntries(entries, id);
    if |live| == 1 && SamePosting(entries[live[0]], e) {
      assert live[0] in live && StandsAlone(entries, id, live[0]);
    }
    if OneStands(entries, id, e) {
      var i: nat :| StandsAlone(entries, id, i) && entries[i].date == e.date && entries[i].memo == e.memo &&
        entries[i].sourceType == e.sourceType && entries[i].isFlagged == e.isFlagged && entries[i].lines == e.lines;
      OnlyOne(live, i);
    }
  }

  lemma OnlyOne(s: seq<nat>, i: nat)
    requires i in s && (forall j: nat :: j in s ==> j == i) && forall a, b :: 0 <= a < b < |s| ==> s[a] < s[b]
    ensures s == [i]
  {
    forall k | 0 <= k < |s|
      ensures s[k] == i
    {
      assert s[k] in s;
    }
    assert s[0] == i && s[|s| - 1] == i;
  }

  // ---- Reversals ----

  /** What undoes an entry; a void says so in the memo. */
  function Reversal(e: JournalEntry, id: nat, reason: Option<string>): JournalEntry {
    var reversal := Reversed(e, e.date, id);
    if reason.None? then reversal
    else reversal.(memo := Some("VOID: " + (if e.memo.Some? then e.memo.value else "") + " (" + reason.value + ")"))
  }

  /** The same account and detail, the amounts on the other sides. */
  predicate Undoes(a: JournalLine, b: JournalLine) {
    a.account == b.account && a.detail == b.detail && a.debit == b.credit && a.credit == b.debit
  }

  /** `r` undoes entry `i` where it stood: on its date, under its document, line by line. */
  predicate UndoesEntry(r: JournalEntry, entries: Entries, i: nat, reason: Option<string>) {
    && i < |entries| && r.reversalOf == Some(i)
    && r.date == entries[i].date && r.sourceType == entries[i].sourceType && r.sourceId == entries[i].sourceId
    && r.sourceVersion == entries[i].sourceVersion && r.isFlagged == entries[i].isFlagged
    && |r.lines| == |entries[i].lines|
    && (forall l :: 0 <= l < |r.lines| ==> Undoes(r.lines[l], entries[i].lines[l]))
    && (reason.None? ==> r.memo == entries[i].memo)
    && (reason.Some? ==>
          r.memo == Some("VOID: " + (if entries[i].memo.Some? then entries[i].memo.value else "") + " (" +
                         reason.value + ")"))
  }

  /** The reversals of the first `n` of some entries, in their order. */
  function Reversals(entries: Entries, live: seq<nat>, reason: Option<string>, n: nat): (r: Entries)
    requires n <= |live| && forall k :: 0 <= k < |live| ==> live[k] < |entries|
    ensures |r| == n
  {
    if n == 0 then []
    else Reversals(entries, live, reason, n - 1) + [Reversal(entries[live[n - 1]], live[n - 1], reason)]
  }

  lemma ReversalsNext(was: Entries, mid: Entries, live: seq<nat>, reason: Option<string>, k: nat)
    requires k < |live| && forall k :: 0 <= k < |live| ==> live[k] < |was|
    requires mid == was + Reversals(was, live, reason, k)
    ensures mid[live[k]] == was[live[k]]
    ensures mid + [Reversal(mid[live[k]], live[k], reason)] == was + Reversals(was, live, reason, k + 1)
  {}

  lemma {:induction false} ReversalsUndo(entries: Entries, live: seq<nat>, reason: Option<string>, n: nat)
    requires n <= |live| && forall k :: 0 <= k < |live| ==> live[k] < |entries|
    ensures forall k :: 0 <= k < n ==> UndoesEntry(Reversals(entries, live, reason, n)[k], entries, live[k], reason)
  {
    if n > 0 { ReversalsUndo(entries, live, reason, n - 1); }
  }

  /** What a posting that differs from what stands adds: first what undoes each entry that stands, in their order,
      then the entry that is posted, if any, under the new version. */
  ghost predicate Restated(was: Entries, now: Entries, id: string, reason: Option<string>,
                           posted: Option<JournalEntry>, version: nat) {
    exists live: seq<nat> :: AreStanding(was, id, live) && Adds(was, now, live, reason, posted, version)
  }

  ghost predicate AreStanding(entries: Entries, id: string, live: seq<nat>) {
    && (forall i: nat :: i in live <==> Stands(entries, id, i))
    && forall a, b :: 0 <= a < b < |live| ==> live[a] < live[b]
  }

  predicate Adds(was: Entries, now: Entries, live: seq<nat>, reason: Option<string>, posted: Option<JournalEntry>,
                 version: nat) {
    && |now| == |was| + |live| + (if posted.Some? then 1 else 0) && now[..|was|] == was
    && (forall k :: 0 <= k < |live| ==> UndoesEntry(now[|was| + k], was, live[k], reason))
    && (posted.Some? ==> now[|now| - 1] == posted.value.(sourceVersion := version))
  }

  lemma RestatedBy(was: Entries, id: string, reason: Option<string>, posted: Option<JournalEntry>, version: nat)
    ensures var live := LiveEntries(was, id);
            var entry := if posted.Some? then [posted.value.(sourceVersion := version)] else [];
            Restated(was, was + Reversals(was, live, reason, |live|) + entry, id, reason, posted, version)
  {
    var live := LiveEntries(was, id);
    var entry := if posted.Some? then [posted.value.(sourceVersion := version)] else [];
    LiveStands(was, id);
    ReversalsUndo(was, live, reason, |live|);
    assert AreStanding(was, id, live);
    assert Adds(was, was + Reversals(was, live, reason, |live|) + entry, live, reason, posted, version);
  }
}
