/** The append-only journal: entries, reversals, and which entries of a document are live. */
module Journal {
  import opened Wrappers
  import opened Documents

  /** `detail` stands for what a line carries besides its account and amounts. */
  datatype JournalLine = JournalLine(account: string, debit: int, credit: int, detail: string)

  /** An entry is known by its place in the journal; a reversal names the one it undoes. */
  datatype JournalEntry = JournalEntry(
    date: int, memo: Option<string>, sourceType: DocKind, sourceId: string, sourceVersion: nat,
    reversalOf: Option<nat>, isFlagged: bool, lines: seq<JournalLine>)

  function Swapped(lines: seq<JournalLine>): (s: seq<JournalLine>)
    ensures |s| == |lines|
  {
    seq(|lines|, i requires 0 <= i < |lines| => lines[i].(debit := lines[i].credit, credit := lines[i].debit))
  }

  /** Same lines, sides swapped (`JournalEntry::reversed`). */
  function Reversed(e: JournalEntry, on: int, id: nat): JournalEntry {
    e.(date := on, reversalOf := Some(id), lines := Swapped(e.lines))
  }

  function Debits(lines: seq<JournalLine>, n: nat): int
    requires n <= |lines|
  {
    if n == 0 then 0 else Debits(lines, n - 1) + lines[n - 1].debit
  }

  function Credits(lines: seq<JournalLine>, n: nat): int
    requires n <= |lines|
  {
    if n == 0 then 0 else Credits(lines, n - 1) + lines[n - 1].credit
  }

  /** `is_balanced`: every line has exactly one positive side, and the sides agree. */
  predicate IsBalanced(e: JournalEntry) {
    && e.lines != []
    && (forall i :: 0 <= i < |e.lines| ==>
          (e.lines[i].debit == 0) != (e.lines[i].credit == 0) && e.lines[i].debit >= 0 && e.lines[i].credit >= 0)
    && Debits(e.lines, |e.lines|) == Credits(e.lines, |e.lines|)
  }

  /** The same journal effect, whichever version it was posted from (`same_posting`). */
  predicate SamePosting(a: JournalEntry, b: JournalEntry) {
    a.date == b.date && a.memo == b.memo && a.sourceType == b.sourceType && a.isFlagged == b.isFlagged &&
        a.lines == b.lines
  }

  // ---- What entries come to ----

  function LineNet(line: JournalLine, account: string): int {
    if line.account == account then line.debit - line.credit else 0
  }

  function LinesNet(lines: seq<JournalLine>, account: string, n: nat): int
    requires n <= |lines|
  {
    if n == 0 then 0 else LinesNet(lines, account, n - 1) + LineNet(lines[n - 1], account)
  }

  function EntryNet(e: JournalEntry, account: string): int { LinesNet(e.lines, account, |e.lines|) }

  lemma {:induction false} SwappedNet(lines: seq<JournalLine>, account: string, n: nat)
    requires n <= |lines|
    ensures LinesNet(Swapped(lines), account, n) == -LinesNet(lines, account, n)
  {
    if n > 0 { SwappedNet(lines, account, n - 1); }
  }

  lemma {:induction false} SwappedSums(lines: seq<JournalLine>, n: nat)
    requires n <= |lines|
    ensures Debits(Swapped(lines), n) == Credits(lines, n) && Credits(Swapped(lines), n) == Debits(lines, n)
  {
    if n > 0 { SwappedSums(lines, n - 1); }
  }

  /** A reversal balances as its entry does. */
  lemma ReversedBalanced(e: JournalEntry, on: int, id: nat)
    requires IsBalanced(e)
    ensures IsBalanced(Reversed(e, on, id))
  {
    SwappedSums(e.lines, |e.lines|);
  }

  type Entries = seq<JournalEntry>

  /** All entries together. */
  function Net(entries: Entries, account: string, n: nat): int
    requires n <= |entries|
  {
    if n == 0 then 0 else Net(entries, account, n - 1) + EntryNet(entries[n - 1], account)
  }

  /** The entries of one document. */
  function DocNet(entries: Entries, id: string, account: string, n: nat): int
    requires n <= |entries|
  {
    if n == 0 then 0
    else if entries[n - 1].sourceId == id then DocNet(entries, id, account, n - 1) + EntryNet(entries[n - 1], account)
    else DocNet(entries, id, account, n - 1)
  }

  // ---- Live entries ----

  /** The entries of a document that a later entry of it undoes. */
  function ReversedIds(entries: Entries, id: string, n: nat): set<nat>
    requires n <= |entries|
  {
    if n == 0 then {}
    else if entries[n - 1].sourceId == id && entries[n - 1].reversalOf.Some? then
      ReversedIds(entries, id, n - 1) + {entries[n - 1].reversalOf.value}
    else ReversedIds(entries, id, n - 1)
  }

  predicate IsLive(entries: Entries, id: string, i: nat) {
    && i < |entries| && entries[i].sourceId == id && entries[i].reversalOf.None?
    && i !in ReversedIds(entries, id, |entries|)
  }

  /** The live entries of a document among the first `n`. */
  function LiveFrom(entries: Entries, id: string, n: nat): (live: seq<nat>)
    requires n <= |entries|
    ensures forall i: nat :: i in live <==> i < n && IsLive(entries, id, i)
    ensures forall a :: 0 <= a < |live| ==> live[a] < n
    ensures forall a, b :: 0 <= a < b < |live| ==> live[a] < live[b]
  {
    if n == 0 then []
    else if IsLive(entries, id, n - 1) then LiveFrom(entries, id, n - 1) + [n - 1]
    else LiveFrom(entries, id, n - 1)
  }

  function LiveEntries(entries: Entries, id: string): seq<nat> { LiveFrom(entries, id, |entries|) }

  /** `live_entries_for_document`. */
  method FindLive(entries: Entries, id: string) returns (live: seq<nat>)
    ensures live == LiveEntries(entries, id)
  {
    var reversed: set<nat> := {};
    for i := 0 to |entries|
      invariant reversed == ReversedIds(entries, id, i)
    {
      if entries[i].sourceId == id && entries[i].reversalOf.Some? {
        reversed := reversed + {entries[i].reversalOf.value};
      }
    }
    live := [];
    for i := 0 to |entries|
      invariant live == LiveFrom(entries, id, i)
    {
      if entries[i].sourceId == id && entries[i].reversalOf.None? && i !in reversed { live := live + [i]; }
    }
  }

  /** What the live entries among the first `n` come to. */
  function LiveNet(entries: Entries, id: string, account: string, n: nat): int
    requires n <= |entries|
  {
    if n == 0 then 0
    else if IsLive(entries, id, n - 1) then LiveNet(entries, id, account, n - 1) + EntryNet(entries[n - 1], account)
    else LiveNet(entries, id, account, n - 1)
  }

  /** Reversals point back at entries of the same document. */
  ghost predicate PointsBack(entries: Entries) {
    forall i :: 0 <= i < |entries| && entries[i].reversalOf.Some? ==> entries[i].reversalOf.value < i
  }

  /** Account by account, every document's entries come to its live ones. */
  ghost predicate Cancelled(entries: Entries) {
    forall id, account :: CancelledFor(entries, id, account)
  }

  predicate CancelledFor(entries: Entries, id: string, account: string) {
    DocNet(entries, id, account, |entries|) == LiveNet(entries, id, account, |entries|)
  }

  lemma {:induction false} ReversedIdsBack(entries: Entries, id: string, n: nat)
    requires n <= |entries| && PointsBack(entries)
    ensures forall i :: i in ReversedIds(entries, id, n) ==> i < n
  {
    if n > 0 { ReversedIdsBack(entries, id, n - 1); }
  }

  lemma {:induction false} ReversedIdsPrefix(entries: Entries, e: JournalEntry, id: string, n: nat)
    requires n <= |entries|
    ensures ReversedIds(entries + [e], id, n) == ReversedIds(entries, id, n)
  {
    if n > 0 { ReversedIdsPrefix(entries, e, id, n - 1); }
  }

  lemma {:induction false} DocNetPrefix(entries: Entries, e: JournalEntry, id: string, account: string, n: nat)
    requires n <= |entries|
    ensures DocNet(entries + [e], id, account, n) == DocNet(entries, id, account, n)
  {
    if n > 0 { DocNetPrefix(entries, e, id, account, n - 1); }
  }

  lemma {:induction false} NetPrefix(entries: Entries, e: JournalEntry, account: string, n: nat)
    requires n <= |entries|
    ensures Net(entries + [e], account, n) == Net(entries, account, n)
  {
    if n > 0 { NetPrefix(entries, e, account, n - 1); }
  }

  /** What appending `e` makes of being live. */
  lemma LiveAfter(entries: Entries, e: JournalEntry, id: string, i: nat)
    requires PointsBack(entries) && (e.reversalOf.Some? ==> e.reversalOf.value < |entries|)
    ensures i < |entries| ==>
      (IsLive(entries + [e], id, i) <==> IsLive(entries, id, i) && !(e.sourceId == id && e.reversalOf == Some(i)))
    ensures IsLive(entries + [e], id, |entries|) <==> e.sourceId == id && e.reversalOf.None?
  {
    ReversedIdsPrefix(entries, e, id, |entries|);
    ReversedIdsBack(entries, id, |entries|);
  }

  lemma {:induction false} LiveNetAfter(entries: Entries, e: JournalEntry, id: string, account: string, n: nat)
    requires n <= |entries| && PointsBack(entries)
    requires e.reversalOf.Some? ==> e.reversalOf.value < |entries|
    ensures LiveNet(entries + [e], id, account, n)
         == LiveNet(entries, id, account, n)
            - (if e.sourceId == id && e.reversalOf.Some? && e.reversalOf.value < n &&
                IsLive(entries, id, e.reversalOf.value)
               then EntryNet(entries[e.reversalOf.value], account) else 0)
  {
    if n > 0 {
      LiveNetAfter(entries, e, id, account, n - 1);
      LiveAfter(entries, e, id, n - 1);
    }
  }

  lemma AppendedFor(entries: Entries, e: JournalEntry, id: string, account: string)
    requires PointsBack(entries) && CancelledFor(entries, id, account)
    requires e.reversalOf.Some? ==>
      IsLive(entries, e.sourceId, e.reversalOf.value) &&
          EntryNet(e, account) == -EntryNet(entries[e.reversalOf.value], account)
    ensures CancelledFor(entries + [e], id, account)
  {
    DocNetPrefix(entries, e, id, account, |entries|);
    LiveNetAfter(entries, e, id, account, |entries|);
    LiveAfter(entries, e, id, |entries|);
  }

  /** A fresh entry is live, and nothing else changes. */
  lemma PostedFresh(entries: Entries, e: JournalEntry)
    requires PointsBack(entries) && Cancelled(entries) && e.reversalOf.None?
    ensures PointsBack(entries + [e]) && Cancelled(entries + [e])
    ensures LiveEntries(entries + [e], e.sourceId) == LiveEntries(entries, e.sourceId) + [|entries|]
    ensures OthersLive(entries, entries + [e], e.sourceId)
  {
    var now := entries + [e];
    forall id, account ensures CancelledFor(now, id, account) {
      AppendedFor(entries, e, id, account);
    }
    forall id
      ensures LiveEntries(now, id) == LiveEntries(entries, id) + (if id == e.sourceId then [|entries|] else [])
    {
      LiveFromAfter(entries, e, id, |entries|);
      LiveAfter(entries, e, id, |entries|);
    }
  }

  /** A reversal of a document's first live entry takes it off, and nothing else changes. */
  lemma PostedReversal(entries: Entries, e: JournalEntry, on: int)
    requires PointsBack(entries) && Cancelled(entries) && LiveEntries(entries, e.sourceId) != []
    requires var first := LiveEntries(entries, e.sourceId)[0];
      e.reversalOf == Some(first) && e.lines == Swapped(entries[first].lines)
    ensures PointsBack(entries + [e]) && Cancelled(entries + [e])
    ensures LiveEntries(entries + [e], e.sourceId) == LiveEntries(entries, e.sourceId)[1..]
    ensures OthersLive(entries, entries + [e], e.sourceId)
  {
    var now, first := entries + [e], LiveEntries(entries, e.sourceId)[0];
    forall id, account ensures CancelledFor(now, id, account) {
      SwappedNet(entries[first].lines, account, |e.lines|);
      AppendedFor(entries, e, id, account);
    }
    assert first in LiveEntries(entries, e.sourceId);
    FirstGone(entries, e, e.sourceId, first, |entries|);
    LiveAfter(entries, e, e.sourceId, |entries|);
    forall id | id != e.sourceId ensures LiveEntries(now, id) == LiveEntries(entries, id) {
      LiveFromAfter(entries, e, id, |entries|);
      LiveAfter(entries, e, id, |entries|);
    }
  }

  /** Every document but `id` has the live entries it had. */
  ghost predicate OthersLive(was: Entries, now: Entries, id: string) {
    forall other :: other != id ==> LiveEntries(now, other) == LiveEntries(was, other)
  }

  /** A fresh entry leaves the live ones of before as they are. */
  lemma {:induction false} LiveFromAfter(entries: Entries, e: JournalEntry, id: string, n: nat)
    requires n <= |entries| && PointsBack(entries) && (e.reversalOf.None? || e.sourceId != id)
    requires e.reversalOf.Some? ==> e.reversalOf.value < |entries|
    ensures LiveFrom(entries + [e], id, n) == LiveFrom(entries, id, n)
  {
    if n > 0 {
      LiveFromAfter(entries, e, id, n - 1);
      LiveAfter(entries, e, id, n - 1);
    }
  }

  lemma NoneBeforeFirst(entries: Entries, id: string, i: nat)
    requires i < |entries| && IsLive(entries, id, i)
    ensures LiveEntries(entries, id) != [] && LiveEntries(entries, id)[0] <= i
  {
    assert i in LiveEntries(entries, id);
  }

  /** The live entries of a document with the earliest one, `first`, gone. */
  lemma {:induction false} FirstGone(entries: Entries, e: JournalEntry, id: string, first: nat, n: nat)
    requires n <= |entries| && PointsBack(entries) && LiveEntries(entries, id) != [] &&
        first == LiveEntries(entries, id)[0]
    requires e.sourceId == id && e.reversalOf == Some(first)
    ensures n <= first ==> LiveFrom(entries + [e], id, n) == LiveFrom(entries, id, n) == []
    ensures first < n ==> LiveFrom(entries, id, n) == [first] + LiveFrom(entries + [e], id, n)
  {
    if n > 0 {
      FirstGone(entries, e, id, first, n - 1);
      LiveAfter(entries, e, id, n - 1);
      if IsLive(entries, id, n - 1) { NoneBeforeFirst(entries, id, n - 1); }
      if n - 1 < first {
      } else if n - 1 == first {
        assert first in LiveEntries(entries, id);
      } else {
        var rest := LiveFrom(entries + [e], id, n - 1);
        assert ([first] + rest) + [n - 1] == [first] + (rest + [n - 1]);
      }
    }
  }
}
