/** What every run of bank steps keeps, and what each match and confirmation means for the journal. */
module BankSafety {
  import opened Wrappers
  import opened Documents
  import opened Journal
  import opened Bank

  // ---- The nearest fit ----

  lemma {:induction false} FirstFitIsFirst(e: JournalEntry, k: nat, cleared: set<Ref>, line: BankLine, rules: Rules,
                                           m: nat)
    requires m <= |e.lines|
    ensures var r := FirstFit(e, k, cleared, line, rules, m);
            && (r.Some? ==> r.value < m && FitsExactly(e, k, r.value, cleared, line, rules))
            && forall j: nat :: j < m && FitsExactly(e, k, j, cleared, line, rules) ==> r.Some? && r.value <= j
  {
    if m > 0 { FirstFitIsFirst(e, k, cleared, line, rules, m - 1); }
  }

  /** `a` comes before `b` in the order the fits are tried in. */
  predicate TriedBefore(entries: Entries, a: Ref, b: Ref, line: BankLine)
    requires a.entry < |entries| && b.entry < |entries|
  {
    || Nearer(entries[a.entry], entries[b.entry], line)
    || (entries[a.entry].date == entries[b.entry].date &&
        (a.entry < b.entry || (a.entry == b.entry && a.line < b.line)))
  }

  /** A fit is found exactly when there is one, and no other fit is nearer the line's date. */
  lemma {:induction false} NearestIsNearest(entries: Entries, cleared: set<Ref>, line: BankLine, rules: Rules, n: nat)
    requires n <= |entries|
    ensures var r := Nearest(entries, cleared, line, rules, n);
            && (r.Some? ==> FitsExactly(entries[r.value.entry], r.value.entry, r.value.line, cleared, line, rules))
            && forall k: nat, j: nat {:trigger FitsExactly(entries[k], k, j, cleared, line, rules)} ::
                 k < n && FitsExactly(entries[k], k, j, cleared, line, rules) ==>
                 r.Some? && (r.value == Ref(k, j) || TriedBefore(entries, r.value, Ref(k, j), line))
  {
    if n > 0 {
      NearestIsNearest(entries, cleared, line, rules, n - 1);
      FirstFitIsFirst(entries[n - 1], n - 1, cleared, line, rules, |entries[n - 1].lines|);
    }
  }

  // ---- What a match clears ----

  predicate AllBalanced(entries: Entries) { forall k :: 0 <= k < |entries| ==> IsBalanced(entries[k]) }

  /** An exact match clears the bank line's own amount, unless the amount is zero: then it clears a line
      that moved the account the other way. */
  lemma ExactClears(entries: Entries, cleared: set<Ref>, line: BankLine, rules: Rules)
    requires AllBalanced(entries) && Decide(entries, cleared, line, rules).TakeExact?
    ensures var at := Decide(entries, cleared, line, rules).at;
            && at.entry < |entries| && at.line < |entries[at.entry].lines| && at !in cleared
            && (LineNet(entries[at.entry].lines[at.line], line.account) == line.amount <==> line.amount != 0)
  {
    NearestIsNearest(entries, cleared, line, rules, |entries|);
    var at := Decide(entries, cleared, line, rules).at;
    assert IsBalanced(entries[at.entry]);
  }

  lemma {:induction false} LegIsDebit(lines: seq<JournalLine>, account: string, n: nat)
    requires n <= |lines|
    ensures var leg := BankLeg(lines, account, n);
            leg.Some? ==> lines[leg.value].account == account && lines[leg.value].debit != 0
  {
    if n > 0 { LegIsDebit(lines, account, n - 1); }
  }

  /** A settlement match clears an entry that moved the bank line's amount out of clearing; it clears the
      amount itself exactly when the entry moved all of that to the bank. */
  lemma SettlementClears(entries: Entries, cleared: set<Ref>, line: BankLine, rules: Rules)
    requires AllBalanced(entries) && Decide(entries, cleared, line, rules).TakeSettlement?
    ensures var at := Decide(entries, cleared, line, rules).at;
            && at.entry < |entries| && at.line < |entries[at.entry].lines| && at !in cleared
            && Gross(entries[at.entry]) == line.amount
            && (LineNet(entries[at.entry].lines[at.line], line.account) == line.amount <==>
                entries[at.entry].lines[at.line].debit == Gross(entries[at.entry]))
  {
    var at := Decide(entries, cleared, line, rules).at;
    LegIsDebit(entries[at.entry].lines, line.account, |entries[at.entry].lines|);
    assert IsBalanced(entries[at.entry]);
  }

  /** A match less a fee: the fee is what the entry moved beyond the bank line, within the ratio, and the leg
      cleared less the fee posted is the bank line exactly when the entry moved all of its gross to the bank. */
  lemma FeeMatchClears(entries: Entries, cleared: set<Ref>, line: BankLine, rules: Rules)
    requires AllBalanced(entries) && Decide(entries, cleared, line, rules).TakeLessFee?
    requires line.account != MERCHANT_FEES
    ensures var d := Decide(entries, cleared, line, rules);
            && d.at.entry < |entries| && d.at.line < |entries[d.at.entry].lines| && d.at !in cleared
            && d.fee > 0 && d.fee as real <= rules.maxFeeRatio * Gross(entries[d.at.entry]) as real
            && EntryNet(FeeEntry(line, d.at.entry, d.fee, rules), MERCHANT_FEES) == d.fee
            && (LineNet(entries[d.at.entry].lines[d.at.line], line.account) +
                EntryNet(FeeEntry(line, d.at.entry, d.fee, rules), line.account) == line.amount <==>
                entries[d.at.entry].lines[d.at.line].debit == Gross(entries[d.at.entry]))
  {
    var d := Decide(entries, cleared, line, rules);
    var e := entries[d.at.entry];
    LegIsDebit(e.lines, line.account, |e.lines|);
    assert IsBalanced(e);
    FeeNet(line, d.at.entry, d.fee, rules);
    RatioTimes(d.fee, Gross(e), rules.maxFeeRatio);
  }

  lemma RatioTimes(fee: int, gross: int, ratio: real)
    requires gross > 0 && fee as real / gross as real <= ratio
    ensures fee as real <= ratio * gross as real
  {
    var f, g := fee as real, gross as real;
    assert f == (f / g) * g;
  }

  lemma TwoLines(e: JournalEntry, account: string)
    requires |e.lines| == 2
    ensures EntryNet(e, account) == LineNet(e.lines[0], account) + LineNet(e.lines[1], account)
    ensures Debits(e.lines, 2) == e.lines[0].debit + e.lines[1].debit
    ensures Credits(e.lines, 2) == e.lines[0].credit + e.lines[1].credit
  {
    assert LinesNet(e.lines, account, 0) == 0 && LinesNet(e.lines, account, 1) == LineNet(e.lines[0], account);
    assert Debits(e.lines, 0) == 0 && Debits(e.lines, 1) == e.lines[0].debit;
    assert Credits(e.lines, 0) == 0 && Credits(e.lines, 1) == e.lines[0].credit;
  }

  lemma FeeNet(line: BankLine, k: nat, fee: int, rules: Rules)
    requires fee > 0 && line.account != MERCHANT_FEES
    ensures EntryNet(FeeEntry(line, k, fee, rules), line.account) == -fee
    ensures EntryNet(FeeEntry(line, k, fee, rules), MERCHANT_FEES) == fee
    ensures IsBalanced(FeeEntry(line, k, fee, rules))
  {
    var e := FeeEntry(line, k, fee, rules);
    TwoLines(e, line.account);
    TwoLines(e, MERCHANT_FEES);
  }

  /** Taking a fee moves it out of the bank account, or, when the journal refuses it, leaves the line matched and
      its leg cleared with no fee posted. */
  lemma FeePosted(book: Book, i: nat, rules: Rules, accepts: JournalEntry -> bool)
    requires i < |book.lines| && DecisionFor(book, i, rules).TakeLessFee? && book.lines[i].account != MERCHANT_FEES
    ensures var d := DecisionFor(book, i, rules);
            var after := Applied(book, i, d, rules, accepts);
            && after.lines[i].state == SettlementMatch(d.at) && d.at in after.cleared
            && Net(after.entries, book.lines[i].account, |after.entries|) ==
               Net(book.entries, book.lines[i].account, |book.entries|) -
                   (if Refused(book, i, d, rules, accepts) then 0 else d.fee)
  {
    var d := DecisionFor(book, i, rules);
    var e := FeeEntry(book.lines[i], d.at.entry, d.fee, rules);
    FeeNet(book.lines[i], d.at.entry, d.fee, rules);
    NetPrefix(book.entries, e, book.lines[i].account, |book.entries|);
    assert (book.entries + [e])[|book.entries|] == e;
  }

  /** A confirmation moves the bank line's size into the account, so it agrees with the bank exactly when no
      money went out; and it balances, and so can be posted, exactly when the amount is not zero. */
  lemma ConfirmedNet(line: BankLine, i: nat, account: string, class': string)
    requires account != line.account
    ensures EntryNet(ConfirmedEntry(line, i, account, class'), line.account) == Size(line)
    ensures EntryNet(ConfirmedEntry(line, i, account, class'), line.account) == line.amount <==> line.amount >= 0
    ensures IsBalanced(ConfirmedEntry(line, i, account, class')) <==> line.amount != 0
  {
    var e := ConfirmedEntry(line, i, account, class');
    if line.amount != 0 { TwoLines(e, line.account); }
  }

  // ---- What is sound ----

  predicate LinesFit(book: Book) {
    forall i :: 0 <= i < |book.lines| ==>
      book.lines[i].statement < |book.statements| &&
          book.lines[i].account == book.statements[book.lines[i].statement].account
  }

  predicate IsPlace(book: Book, at: Ref) {
    at in book.cleared && at.entry < |book.entries| && at.line < |book.entries[at.entry].lines|
  }

  /** Every resolved line names a cleared journal line. */
  predicate MatchesFit(book: Book) {
    forall i :: 0 <= i < |book.lines| && IsResolved(book.lines[i].state) ==> IsPlace(book, book.lines[i].state.at)
  }

  /** No journal line is cleared for two bank lines. */
  predicate ClearedOnce(lines: seq<BankLine>) {
    forall i, j :: 0 <= i < j < |lines| && IsResolved(lines[i].state) && IsResolved(lines[j].state) ==>
      lines[i].state.at != lines[j].state.at
  }

  predicate SameExternal(a: BankLine, b: BankLine) {
    a.account == b.account && a.externalId.Some? && a.externalId == b.externalId
  }

  /** No transaction of a bank is imported twice. */
  predicate ImportedOnce(lines: seq<BankLine>) {
    forall i, j :: 0 <= i < j < |lines| ==> !SameExternal(lines[i], lines[j])
  }

  /** A closed statement's lines, all of them, carry its opening balance to its closing one. */
  predicate ClosedAddUp(book: Book) {
    forall s :: 0 <= s < |book.statements| && book.statements[s].closedAt.Some? ==>
      book.statements[s].opening + StatementSum(book.lines, s, |book.lines|) == book.statements[s].closing
  }

  /** Only lines of posted entries are cleared. */
  predicate ClearedPosted(book: Book) { forall at :: at in book.cleared ==> at.entry < |book.entries| }

  predicate Sound(book: Book) {
    && ClearedPosted(book)
    && LinesFit(book) && MatchesFit(book) && ClearedOnce(book.lines) && ImportedOnce(book.lines) &&
        ClosedAddUp(book) && AllBalanced(book.entries)
  }

  // ---- How lines may move ----

  /** None to anything a match gives, a proposal to a confirmation, and nothing else. */
  predicate MayBecome(s: MatchState, t: MatchState) { s == t || s.Unmatched? || (s.Proposed? && t.ManualMatch?) }

  predicate LineMoved(a: BankLine, b: BankLine) { b == a.(state := b.state) && MayBecome(a.state, b.state) }

  predicate StatementMoved(a: Statement, b: Statement) {
    b == a.(closedAt := b.closedAt) && (a.closedAt.Some? ==> b == a)
  }

  predicate IsClosed(book: Book, s: nat) { s < |book.statements| && book.statements[s].closedAt.Some? }

  predicate LinesMoved(a: Book, b: Book) {
    && |a.lines| <= |b.lines|
    && (forall i :: 0 <= i < |a.lines| ==>
          LineMoved(a.lines[i], b.lines[i]) && (IsClosed(a, a.lines[i].statement) ==> b.lines[i] == a.lines[i]))
    && forall i :: |a.lines| <= i < |b.lines| ==> b.lines[i].statement >= |a.statements|
  }

  predicate StatementsMoved(a: seq<Statement>, b: seq<Statement>) {
    |a| <= |b| && forall s :: 0 <= s < |a| ==> StatementMoved(a[s], b[s])
  }

  /** How a book may change: entries are only added, cleared lines stay cleared, lines and statements move on. */
  predicate Grows(a: Book, b: Book) {
    LinesMoved(a, b) && StatementsMoved(a.statements, b.statements) && a.entries <= b.entries && a.cleared <= b.cleared
  }

  lemma GrowsOn(a: Book, b: Book, c: Book)
    requires Grows(a, b) && Grows(b, c)
    ensures Grows(a, c)
  {
    forall s | 0 <= s < |a.statements|
      ensures StatementMoved(a.statements[s], c.statements[s])
    {
      assert StatementMoved(a.statements[s], b.statements[s]) && StatementMoved(b.statements[s], c.statements[s]);
    }
    forall i | 0 <= i < |a.lines|
      ensures LineMoved(a.lines[i], c.lines[i]) && (IsClosed(a, a.lines[i].statement) ==> c.lines[i] == a.lines[i])
    {
      assert LineMoved(a.lines[i], b.lines[i]) && LineMoved(b.lines[i], c.lines[i]);
      if IsClosed(a, a.lines[i].statement) { assert IsClosed(b, b.lines[i].statement); }
    }
    forall i | |a.lines| <= i < |c.lines|
      ensures c.lines[i].statement >= |a.statements|
    {
      if i < |b.lines| { assert LineMoved(b.lines[i], c.lines[i]); }
    }
  }

  lemma GrowsSelf(a: Book)
    ensures Grows(a, a)
  {}

  // ---- Marking a line ----

  /** A free journal line may be named by an unresolved line of an open statement. */
  predicate MayMark(book: Book, i: nat, state: MatchState) {
    && i < |book.lines| && IsOpen(book, book.lines[i].statement) && MayBecome(book.lines[i].state, state)
    && !IsResolved(book.lines[i].state)
    && (IsResolved(state) ==>
          && state.at !in book.cleared
          && state.at.entry < |book.entries| && state.at.line < |book.entries[state.at.entry].lines|)
  }

  function NewlyCleared(state: MatchState): set<Ref> { if IsResolved(state) then {state.at} else {} }

  lemma {:induction false} SumUnmoved(lines: seq<BankLine>, lines': seq<BankLine>, s: nat, n: nat)
    requires n <= |lines| && n <= |lines'|
    requires forall i :: 0 <= i < n ==> lines'[i] == lines[i].(state := lines'[i].state)
    ensures StatementSum(lines', s, n) == StatementSum(lines, s, n)
  {
    if n > 0 { SumUnmoved(lines, lines', s, n - 1); }
  }

  lemma MarkKeepsOnce(book: Book, i: nat, state: MatchState)
    requires MayMark(book, i, state) && MatchesFit(book) && ClearedOnce(book.lines)
    ensures ClearedOnce(Marked(book, i, state, NewlyCleared(state)).lines)
  {
    var lines := Marked(book, i, state, NewlyCleared(state)).lines;
    forall j, k | 0 <= j < k < |lines| && IsResolved(lines[j].state) && IsResolved(lines[k].state)
      ensures lines[j].state.at != lines[k].state.at
    {
      if j == i {
        assert IsPlace(book, book.lines[k].state.at);
      } else if k == i {
        assert IsPlace(book, book.lines[j].state.at);
      }
    }
  }

  lemma MarkKeepsPlaces(book: Book, i: nat, state: MatchState)
    requires MayMark(book, i, state) && MatchesFit(book)
    ensures MatchesFit(Marked(book, i, state, NewlyCleared(state)))
  {
    var after := Marked(book, i, state, NewlyCleared(state));
    forall j | 0 <= j < |after.lines| && IsResolved(after.lines[j].state)
      ensures IsPlace(after, after.lines[j].state.at)
    {
      if j != i { assert IsPlace(book, book.lines[j].state.at); }
    }
  }

  lemma MarkKeepsSums(book: Book, i: nat, state: MatchState)
    requires i < |book.lines| && ClosedAddUp(book)
    ensures ClosedAddUp(Marked(book, i, state, NewlyCleared(state)))
  {
    var after := Marked(book, i, state, NewlyCleared(state));
    forall s | 0 <= s < |after.statements| && after.statements[s].closedAt.Some?
      ensures after.statements[s].opening + StatementSum(after.lines, s, |after.lines|) == after.statements[s].closing
    {
      SumUnmoved(book.lines, after.lines, s, |book.lines|);
    }
  }

  lemma MarkKeeps(book: Book, i: nat, state: MatchState)
    requires MayMark(book, i, state) && Sound(book)
    ensures Sound(Marked(book, i, state, NewlyCleared(state)))
    ensures Grows(book, Marked(book, i, state, NewlyCleared(state)))
  {
    MarkKeepsOnce(book, i, state);
    MarkKeepsPlaces(book, i, state);
    MarkKeepsSums(book, i, state);
    var after := Marked(book, i, state, NewlyCleared(state));
    forall j, k | 0 <= j < k < |after.lines|
      ensures !SameExternal(after.lines[j], after.lines[k])
    {
      assert !SameExternal(book.lines[j], book.lines[k]);
    }
  }

  // ---- Posting an entry ----

  lemma PostKeeps(book: Book, e: JournalEntry, accepts: JournalEntry -> bool)
    requires Sound(book)
    ensures Sound(Posted(book, e, accepts)) && Grows(book, Posted(book, e, accepts))
  {
    var after := Posted(book, e, accepts);
    forall j | 0 <= j < |after.lines| && IsResolved(after.lines[j].state)
      ensures IsPlace(after, after.lines[j].state.at)
    {
      assert IsPlace(book, book.lines[j].state.at);
    }
  }

  // ---- Matching ----

  lemma DecisionFits(entries: Entries, cleared: set<Ref>, line: BankLine, rules: Rules)
    ensures var d := Decide(entries, cleared, line, rules);
            d.Propose? ||
            (d.at !in cleared && d.at.entry < |entries| && d.at.line < |entries[d.at.entry].lines|)
  {
    NearestIsNearest(entries, cleared, line, rules, |entries|);
  }

  function StateAfter(d: Decision): MatchState {
    match d
    case TakeExact(at) => ExactMatch(at)
    case TakeSettlement(at) => SettlementMatch(at)
    case TakeLessFee(at, _) => SettlementMatch(at)
    case Propose => Proposed
  }

  lemma DecisionKeeps(book: Book, i: nat, rules: Rules, accepts: JournalEntry -> bool)
    requires Sound(book) && i < |book.lines| && IsOpen(book, book.lines[i].statement) && book.lines[i].state.Unmatched?
    ensures var after := Applied(book, i, DecisionFor(book, i, rules), rules, accepts);
            Sound(after) && Grows(book, after) && !after.lines[i].state.Unmatched? &&
                after.statements == book.statements
  {
    var d := DecisionFor(book, i, rules);
    DecisionFits(book.entries, book.cleared, book.lines[i], rules);
    var state := StateAfter(d);
    MarkKeeps(book, i, state);
    if d.TakeLessFee? {
      var marked := Marked(book, i, state, NewlyCleared(state));
      var fee := FeeEntry(book.lines[i], d.at.entry, d.fee, rules);
      PostKeeps(marked, fee, accepts);
      GrowsOn(book, marked, Posted(marked, fee, accepts));
    }
  }

  /** What matching a statement has made of `book` so far. */
  ghost predicate Reached(book: Book, now: Book) { Sound(now) && Grows(book, now) && now.statements == book.statements }

  lemma TriedKeeps(p: Progress, i: nat, rules: Rules, accepts: JournalEntry -> bool)
    requires Sound(p.book) && i < |p.book.lines| && IsOpen(p.book, p.book.lines[i].statement)
    ensures var q := Tried(p, i, rules, accepts);
            Reached(p.book, q.book) && (q.ok ==> p.ok && !q.book.lines[i].state.Unmatched?)
  {
    if p.ok && p.book.lines[i].state.Unmatched? {
      DecisionKeeps(p.book, i, rules, accepts);
    }
  }

  lemma ReachedOn(a: Book, b: Book, c: Book)
    requires Reached(a, b) && Reached(b, c)
    ensures Reached(a, c)
  {
    GrowsOn(a, b, c);
  }

  /** A line keeps its statement and stays out of the unmatched. */
  lemma LineKept(a: Book, b: Book, i: nat)
    requires Grows(a, b) && i < |a.lines|
    ensures i < |b.lines| && b.lines[i].statement == a.lines[i].statement
    ensures !a.lines[i].state.Unmatched? ==> !b.lines[i].state.Unmatched?
  {
    assert LineMoved(a.lines[i], b.lines[i]);
  }

  predicate AllOn(order: seq<nat>, lines: seq<BankLine>, statement: nat) {
    AreLines(order, lines) && forall k :: 0 <= k < |order| ==> lines[order[k]].statement == statement
  }

  lemma {:induction false} MatchingKeeps(book: Book, statement: nat, order: seq<nat>, rules: Rules,
                                         accepts: JournalEntry -> bool, n: nat)
    requires Sound(book) && IsOpen(book, statement) && AllOn(order, book.lines, statement) && n <= |order|
    ensures Reached(book, MatchedUpTo(book, order, rules, accepts, n).book)
  {
    if n > 0 {
      MatchingKeeps(book, statement, order, rules, accepts, n - 1);
      var p := MatchedUpTo(book, order, rules, accepts, n - 1);
      LineKept(book, p.book, order[n - 1]);
      TriedKeeps(p, order[n - 1], rules, accepts);
      ReachedOn(book, p.book, Tried(p, order[n - 1], rules, accepts).book);
    }
  }

  lemma MatchingTries(book: Book, statement: nat, order: seq<nat>, rules: Rules, accepts: JournalEntry -> bool, n: nat)
    requires Sound(book) && IsOpen(book, statement) && AllOn(order, book.lines, statement) && 0 < n <= |order|
    ensures var p := MatchedUpTo(book, order, rules, accepts, n - 1);
            var q := MatchedUpTo(book, order, rules, accepts, n);
            Grows(p.book, q.book) && (q.ok ==> p.ok && !q.book.lines[order[n - 1]].state.Unmatched?)
  {
    var p := MatchedUpTo(book, order, rules, accepts, n - 1);
    MatchingKeeps(book, statement, order, rules, accepts, n - 1);
    LineKept(book, p.book, order[n - 1]);
    TriedKeeps(p, order[n - 1], rules, accepts);
  }

  lemma {:induction false} MatchingLeavesNone(book: Book, statement: nat, order: seq<nat>, rules: Rules,
                                              accepts: JournalEntry -> bool, n: nat, k: nat)
    requires Sound(book) && IsOpen(book, statement) && AllOn(order, book.lines, statement) && k < n <= |order|
    requires MatchedUpTo(book, order, rules, accepts, n).ok
    ensures !MatchedUpTo(book, order, rules, accepts, n).book.lines[order[k]].state.Unmatched?
  {
    MatchingTries(book, statement, order, rules, accepts, n);
    if k < n - 1 {
      MatchingLeavesNone(book, statement, order, rules, accepts, n - 1, k);
      var p := MatchedUpTo(book, order, rules, accepts, n - 1);
      LineKept(p.book, MatchedUpTo(book, order, rules, accepts, n).book, order[k]);
    }
  }

  lemma {:induction false} NothingLeft(book: Book, order: seq<nat>, rules: Rules, accepts: JournalEntry -> bool, n: nat)
    requires n <= |order| && AreLines(order, book.lines)
    requires forall k :: 0 <= k < |order| ==> !book.lines[order[k]].state.Unmatched?
    ensures MatchedUpTo(book, order, rules, accepts, n) == Progress(book, NO_MATCHES, true)
  {
    if n > 0 { NothingLeft(book, order, rules, accepts, n - 1); }
  }

  /** Every line of a statement has been through the rules. */
  predicate IsMatched(book: Book, statement: nat) {
    forall i :: 0 <= i < |book.lines| && book.lines[i].statement == statement ==> !book.lines[i].state.Unmatched?
  }

  /** A match that is not refused leaves no line of its statement out. */
  lemma MatchingMatches(book: Book, statement: nat, rules: Rules, accepts: JournalEntry -> bool)
    requires Sound(book) && IsOpen(book, statement) && Matching(book, statement, rules, accepts).ok
    ensures IsMatched(Matching(book, statement, rules, accepts).book, statement)
  {
    var order := InOrder(book.lines, statement);
    MatchingKeeps(book, statement, order, rules, accepts, |order|);
    var after := Matching(book, statement, rules, accepts).book;
    forall i | 0 <= i < |after.lines| && after.lines[i].statement == statement
      ensures !after.lines[i].state.Unmatched?
    {
      LineKept(book, after, i);
      var k :| 0 <= k < |order| && order[k] == i;
      MatchingLeavesNone(book, statement, order, rules, accepts, |order|, k);
    }
  }

  /** Matching a matched statement again, by whatever rules, changes nothing and reports nothing. */
  lemma SecondMatch(book: Book, statement: nat, rules: Rules, accepts: JournalEntry -> bool)
    requires IsMatched(book, statement)
    ensures Matching(book, statement, rules, accepts) == Progress(book, NO_MATCHES, true)
  {
    var order := InOrder(book.lines, statement);
    NothingLeft(book, order, rules, accepts, |order|);
  }

  /** A matched statement stays matched. */
  lemma MatchedStays(a: Book, b: Book, statement: nat)
    requires statement < |a.statements| && Grows(a, b) && IsMatched(a, statement)
    ensures IsMatched(b, statement)
  {
    forall i | 0 <= i < |b.lines| && b.lines[i].statement == statement
      ensures !b.lines[i].state.Unmatched?
    {
      if i < |a.lines| { assert LineMoved(a.lines[i], b.lines[i]); }
    }
  }

  // ---- Importing ----

  /** What an import may do to the lines: add new ones, each to its own statement. */
  predicate Extends(lines: seq<BankLine>, lines': seq<BankLine>, statement: nat, account: string) {
    && lines <= lines'
    && forall i :: |lines| <= i < |lines'| ==>
         lines'[i].statement == statement && lines'[i].account == account && lines'[i].state.Unmatched?
  }

  lemma {:induction false} ImportExtends(lines: seq<BankLine>, statement: nat, account: string,
                                         parsed: seq<ParsedLine>, n: nat)
    requires n <= |parsed| && ImportedOnce(lines)
    ensures var lines' := Imported(lines, statement, account, parsed, n);
            Extends(lines, lines', statement, account) && ImportedOnce(lines')
  {
    if n > 0 {
      ImportExtends(lines, statement, account, parsed, n - 1);
      var before := Imported(lines, statement, account, parsed, n - 1);
      if !IsDuplicate(before, account, parsed[n - 1]) {
        forall i | 0 <= i < |before|
          ensures !SameExternal(before[i], NewLine(statement, account, parsed[n - 1]))
        {}
      }
    }
  }

  /** A line with a bank's id is on the account after an import, whether it was new or not, and stays out if it was
      there. */
  lemma {:induction false} ImportBrings(lines: seq<BankLine>, statement: nat, account: string, parsed: seq<ParsedLine>,
                                        n: nat, k: nat)
    requires k < n <= |parsed| && parsed[k].externalId.Some?
    ensures var lines' := Imported(lines, statement, account, parsed, n);
            Seen(lines', account, parsed[k].externalId.value, |lines'|)
  {
    var before := Imported(lines, statement, account, parsed, n - 1);
    var lines' := Imported(lines, statement, account, parsed, n);
    if k < n - 1 {
      ImportBrings(lines, statement, account, parsed, n - 1, k);
      var i :| 0 <= i < |before| && before[i].account == account &&
          before[i].externalId == Some(parsed[k].externalId.value);
      assert lines'[i] == before[i];
    } else if !IsDuplicate(before, account, parsed[k]) {
      assert lines'[|before|] == NewLine(statement, account, parsed[k]);
    }
  }

  /** Importing a file a second time, when every line carries the bank's id, adds no line. */
  lemma {:induction false} SecondImport(lines: seq<BankLine>, statement: nat, account: string, parsed: seq<ParsedLine>,
                                        n: nat)
    requires n <= |parsed|
    requires forall k :: 0 <= k < n ==>
        parsed[k].externalId.Some? && Seen(lines, account, parsed[k].externalId.value, |lines|)
    ensures Imported(lines, statement, account, parsed, n) == lines
  {
    if n > 0 { SecondImport(lines, statement, account, parsed, n - 1); }
  }

  lemma {:induction false} SumOfOthers(lines: seq<BankLine>, lines': seq<BankLine>, s: nat, statement: nat,
                                       account: string, n: nat)
    requires Extends(lines, lines', statement, account) && s != statement && |lines| <= n <= |lines'|
    ensures StatementSum(lines', s, n) == StatementSum(lines, s, |lines|)
  {
    if n == |lines| {
      SumUnmoved(lines, lines', s, n);
    } else {
      SumOfOthers(lines, lines', s, statement, account, n - 1);
    }
  }

  lemma ImportKeeps(book: Book, account: string, from: int, through: int, opening: int, closing: int,
                    parsed: seq<ParsedLine>)
    requires Sound(book)
    ensures var after := WithImport(book, account, from, through, opening, closing, parsed);
            Sound(after) && Grows(book, after)
  {
    var after := WithImport(book, account, from, through, opening, closing, parsed);
    var sid := |book.statements|;
    ImportExtends(book.lines, sid, account, parsed, |parsed|);
    assert forall i :: 0 <= i < |book.lines| ==> after.lines[i] == book.lines[i];
    forall s | 0 <= s < |after.statements| && after.statements[s].closedAt.Some?
      ensures after.statements[s].opening + StatementSum(after.lines, s, |after.lines|) == after.statements[s].closing
    {
      SumOfOthers(book.lines, after.lines, s, sid, account, |after.lines|);
    }
    forall j | 0 <= j < |after.lines| && IsResolved(after.lines[j].state)
      ensures IsPlace(after, after.lines[j].state.at)
    {
      assert IsPlace(book, book.lines[j].state.at);
    }
  }

  // ---- Confirming and closing ----

  lemma ConfirmKeeps(book: Book, i: nat, account: string, class': string, accepts: JournalEntry -> bool)
    requires Sound(book) && CanConfirm(book, i)
    ensures var after := WithConfirmed(book, i, account, class', accepts);
            Sound(after) && Grows(book, after)
  {
    var e := ConfirmedEntry(book.lines[i], i, account, class');
    if Takes(book, e, accepts) {
      var posted := Posted(book, e, accepts);
      PostKeeps(book, e, accepts);
      var state := ManualMatch(Ref(|book.entries|, 0));
      MarkKeeps(posted, i, state);
      GrowsOn(book, posted, Marked(posted, i, state, NewlyCleared(state)));
      assert WithConfirmed(book, i, account, class', accepts) == Marked(posted, i, state, NewlyCleared(state));
    }
  }

  lemma {:induction false} SumsSplit(lines: seq<BankLine>, s: nat, n: nat)
    requires n <= |lines|
    ensures StatementSum(lines, s, n) == ResolvedSum(lines, s, n) + UnresolvedSum(lines, s, n)
  {
    if n > 0 { SumsSplit(lines, s, n - 1); }
  }

  lemma CloseKeeps(book: Book, statement: nat, at: int)
    requires Sound(book)
    ensures Sound(WithClosed(book, statement, at)) && Grows(book, WithClosed(book, statement, at))
  {
    if IsOpen(book, statement) { SumsSplit(book.lines, statement, |book.lines|); }
    var after := WithClosed(book, statement, at);
    forall j | 0 <= j < |after.lines| && IsResolved(after.lines[j].state)
      ensures IsPlace(after, after.lines[j].state.at)
    {
      assert IsPlace(book, book.lines[j].state.at);
    }
  }

  // ---- Runs ----

  lemma StepKeeps(book: Book, step: Step, accepts: JournalEntry -> bool)
    requires Sound(book)
    ensures Sound(Next(book, step, accepts)) && Grows(book, Next(book, step, accepts))
  {
    if step.ImportStatement? {
      ImportKeeps(book, step.account, step.from, step.through, step.opening, step.closing, step.parsed);
    } else if step.MatchStatement? {
      GrowsSelf(book);
      if IsOpen(book, step.statement) {
        var order := InOrder(book.lines, step.statement);
        MatchingKeeps(book, step.statement, order, step.rules, accepts, |order|);
      }
    } else if step.ConfirmProposal? {
      GrowsSelf(book);
      if CanConfirm(book, step.line) { ConfirmKeeps(book, step.line, step.account, step.class', accepts); }
    } else if step.CloseStatement? {
      CloseKeeps(book, step.statement, step.at);
    } else if step.PostEntry? {
      PostKeeps(book, step.entry, accepts);
    } else {
      MatchesFitAgain(book, Next(book, step, accepts));
    }
  }

  lemma MatchesFitAgain(book: Book, after: Book)
    requires MatchesFit(book) && after.lines == book.lines && after.entries == book.entries &&
        after.cleared == book.cleared
    ensures MatchesFit(after)
  {
    forall j | 0 <= j < |after.lines| && IsResolved(after.lines[j].state)
      ensures IsPlace(after, after.lines[j].state.at)
    {
      assert IsPlace(book, book.lines[j].state.at);
    }
  }

  /** Over every run: no journal line is cleared for two bank lines, no bank transaction is imported twice, a
      closed statement adds up over all its lines and none of them changes again, and every line only moves
      from unmatched to a match or a proposal, and from a proposal to a confirmation. */
  lemma {:induction false} RunKeeps(book: Book, steps: seq<Step>, accepts: JournalEntry -> bool, n: nat)
    requires n <= |steps| && Sound(book)
    ensures Sound(After(book, steps, accepts, n)) && Grows(book, After(book, steps, accepts, n))
  {
    if n == 0 {
      GrowsSelf(book);
    } else {
      RunKeeps(book, steps, accepts, n - 1);
      var before := After(book, steps, accepts, n - 1);
      StepKeeps(before, steps[n - 1], accepts);
      GrowsOn(book, before, Next(before, steps[n - 1], accepts));
    }
  }

  /** Once a match of a statement is not refused, matching it again after any run changes nothing. */
  lemma MatchedForGood(book: Book, statement: nat, rules: Rules, steps: seq<Step>, accepts: JournalEntry -> bool,
                       n: nat, rules': Rules)
    requires Sound(book) && IsOpen(book, statement) && Matching(book, statement, rules, accepts).ok && n <= |steps|
    ensures var later := After(WithMatches(book, statement, rules, accepts), steps, accepts, n);
            WithMatches(later, statement, rules', accepts) == later
  {
    var matched := WithMatches(book, statement, rules, accepts);
    StepKeeps(book, MatchStatement(statement, rules), accepts);
    MatchingMatches(book, statement, rules, accepts);
    RunKeeps(matched, steps, accepts, n);
    var later := After(matched, steps, accepts, n);
    MatchedStays(matched, later, statement);
    SecondMatch(later, statement, rules', accepts);
  }
}
