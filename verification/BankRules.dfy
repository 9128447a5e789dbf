/** Which of the match rules a bank line falls under and what that leaves behind, told from the entries, the bank
    line and the rules themselves. */
module BankRules {
  import opened Wrappers
  import opened Documents
  import opened Journal
  import opened Bank
  import opened BankSafety

  // ---- What stands for a bank line ----

  predicate Within(e: JournalEntry, line: BankLine, days: int) { -days <= e.date - line.date <= days }

  /** Line `j` of entry `k` moved the bank account the way the bank says, by as much, and is not cleared. */
  predicate AnswersTo(entries: Entries, k: nat, j: nat, cleared: set<Ref>, line: BankLine, days: int) {
    && k < |entries| && j < |entries[k].lines|
    && entries[k].sourceType in {DocKind.Payment, DocKind.Deposit, DocKind.BillPayment, DocKind.Purchase}
    && Within(entries[k], line, days)
    && entries[k].lines[j].account == line.account
    && (if line.amount < 0 then entries[k].lines[j].credit == -line.amount
        else entries[k].lines[j].debit == line.amount)
    && Ref(k, j) !in cleared
  }

  /** Entry `k` touches clearing, near the bank line, and line `j`, its first debit to the bank, is not cleared. */
  predicate PaysOut(entries: Entries, k: nat, j: nat, cleared: set<Ref>, line: BankLine, days: int) {
    && k < |entries| && j < |entries[k].lines|
    && (entries[k].sourceType == DocKind.Settlement || entries[k].sourceType == DocKind.Deposit)
    && Within(entries[k], line, days)
    && (exists i :: 0 <= i < |entries[k].lines| && entries[k].lines[i].account == "1160")
    && entries[k].lines[j].account == line.account && entries[k].lines[j].debit != 0
    && (forall i :: 0 <= i < j && entries[k].lines[i].account == line.account ==> entries[k].lines[i].debit == 0)
    && Ref(k, j) !in cleared
  }

  predicate PaysWhole(entries: Entries, k: nat, j: nat, cleared: set<Ref>, line: BankLine, days: int) {
    PaysOut(entries, k, j, cleared, line, days) && Gross(entries[k]) == line.amount
  }

  /** It took more out of clearing than the bank received, by no more than `ratio` of it. */
  predicate PaysLess(entries: Entries, k: nat, j: nat, cleared: set<Ref>, line: BankLine, rules: Rules) {
    && PaysOut(entries, k, j, cleared, line, rules.days)
    && Gross(entries[k]) > line.amount
    && (Gross(entries[k]) - line.amount) as real <= rules.maxFeeRatio * Gross(entries[k]) as real
  }

  ghost predicate HasExact(entries: Entries, cleared: set<Ref>, line: BankLine, rules: Rules) {
    exists k: nat, j: nat :: AnswersTo(entries, k, j, cleared, line, rules.days)
  }

  ghost predicate HasWhole(entries: Entries, cleared: set<Ref>, line: BankLine, rules: Rules) {
    exists k: nat, j: nat :: PaysWhole(entries, k, j, cleared, line, rules.days)
  }

  ghost predicate HasLess(entries: Entries, cleared: set<Ref>, line: BankLine, rules: Rules) {
    exists k: nat, j: nat :: PaysLess(entries, k, j, cleared, line, rules)
  }

  /** What an entry credits to clearing is what it takes out of it, unless it also puts something in. */
  lemma GrossIsOutflow(e: JournalEntry)
    requires forall i :: 0 <= i < |e.lines| ==> e.lines[i].debit >= 0
    ensures Gross(e) >= -EntryNet(e, "1160")
    ensures Gross(e) == -EntryNet(e, "1160") <==>
            forall i :: 0 <= i < |e.lines| && e.lines[i].account == "1160" ==> e.lines[i].debit == 0
  {
    for n := 0 to |e.lines|
      invariant CreditsTo(e.lines, "1160", n) >= -LinesNet(e.lines, "1160", n)
      invariant CreditsTo(e.lines, "1160", n) == -LinesNet(e.lines, "1160", n) <==>
                forall i :: 0 <= i < n && e.lines[i].account == "1160" ==> e.lines[i].debit == 0
    {}
  }

  // ---- The two ways of saying it ----

  lemma AnswersFit(entries: Entries, k: nat, j: nat, cleared: set<Ref>, line: BankLine, rules: Rules)
    requires k < |entries|
    ensures AnswersTo(entries, k, j, cleared, line, rules.days) <==>
            FitsExactly(entries[k], k, j, cleared, line, rules)
  {}

  lemma {:induction false} LegIsFirst(lines: seq<JournalLine>, account: string, n: nat, j: nat)
    requires j < n <= |lines|
    ensures BankLeg(lines, account, n) == Some(j) <==>
            && lines[j].account == account && lines[j].debit != 0
            && forall i :: 0 <= i < j && lines[i].account == account ==> lines[i].debit == 0
  {
    var leg := BankLeg(lines, account, n);
    LegIsDebit(lines, account, n);
    LegMissesNone(lines, account, n);
  }

  lemma {:induction false} LegMissesNone(lines: seq<JournalLine>, account: string, n: nat)
    requires n <= |lines|
    ensures var leg := BankLeg(lines, account, n);
            forall i :: 0 <= i < (if leg.Some? then leg.value else n) && lines[i].account == account ==>
              lines[i].debit == 0
  {
    if n > 0 { LegMissesNone(lines, account, n - 1); }
  }

  lemma PaysFit(entries: Entries, k: nat, j: nat, cleared: set<Ref>, line: BankLine, rules: Rules)
    requires k < |entries|
    ensures PaysOut(entries, k, j, cleared, line, rules.days) <==>
            IsOpenSettlement(entries[k], k, cleared, line, rules) && LegOf(entries[k], line) == Some(j)
  {
    if j < |entries[k].lines| { LegIsFirst(entries[k].lines, line.account, |entries[k].lines|, j); }
  }

  lemma RatioFits(gross: int, net: int, rules: Rules)
    requires gross > 0
    ensures (gross - net) as real / gross as real <= rules.maxFeeRatio <==>
            (gross - net) as real <= rules.maxFeeRatio * gross as real
  {
    var f, g := (gross - net) as real, gross as real;
    assert f == (f / g) * g;
    if f / g <= rules.maxFeeRatio {
    } else {
      assert (f / g) * g > rules.maxFeeRatio * g;
    }
  }

  lemma LessFits(entries: Entries, k: nat, j: nat, cleared: set<Ref>, line: BankLine, rules: Rules)
    requires k < |entries| && line.amount >= 0
    ensures PaysLess(entries, k, j, cleared, line, rules) <==>
            SettlesLessFee(entries[k], k, cleared, line, rules) && LegOf(entries[k], line) == Some(j)
  {
    PaysFit(entries, k, j, cleared, line, rules);
    if Gross(entries[k]) > 0 { RatioFits(Gross(entries[k]), line.amount, rules); }
  }

  // ---- Which rule ----

  function Away(entries: Entries, at: Ref, line: BankLine): nat
    requires at.entry < |entries|
  {
    var d := entries[at.entry].date - line.date;
    if d < 0 then -d else d
  }

  /** Nearest the bank line's date first, then by date, then in the order of the journal. */
  predicate ComesFirst(entries: Entries, a: Ref, b: Ref, line: BankLine)
    requires a.entry < |entries| && b.entry < |entries|
  {
    if Away(entries, a, line) != Away(entries, b, line) then Away(entries, a, line) < Away(entries, b, line)
    else if entries[a.entry].date != entries[b.entry].date then entries[a.entry].date < entries[b.entry].date
    else if a.entry != b.entry then a.entry < b.entry
    else a.line <= b.line
  }

  /** The line an exact match takes. */
  ghost predicate IsExactChoice(entries: Entries, at: Ref, cleared: set<Ref>, line: BankLine, rules: Rules) {
    && AnswersTo(entries, at.entry, at.line, cleared, line, rules.days)
    && forall k: nat, j: nat :: AnswersTo(entries, k, j, cleared, line, rules.days) ==>
         ComesFirst(entries, at, Ref(k, j), line)
  }

  ghost predicate IsWholeChoice(entries: Entries, at: Ref, cleared: set<Ref>, line: BankLine, rules: Rules) {
    && PaysWhole(entries, at.entry, at.line, cleared, line, rules.days)
    && forall k: nat, j: nat :: PaysWhole(entries, k, j, cleared, line, rules.days) ==> at.entry <= k
  }

  ghost predicate IsLessChoice(entries: Entries, at: Ref, cleared: set<Ref>, line: BankLine, rules: Rules) {
    && PaysLess(entries, at.entry, at.line, cleared, line, rules)
    && forall k: nat, j: nat :: PaysLess(entries, k, j, cleared, line, rules) ==> at.entry <= k
  }

  lemma ExactDecided(entries: Entries, cleared: set<Ref>, line: BankLine, rules: Rules)
    ensures var r := Nearest(entries, cleared, line, rules, |entries|);
            && (r.Some? <==> HasExact(entries, cleared, line, rules))
            && (r.Some? ==> IsExactChoice(entries, r.value, cleared, line, rules))
  {
    NearestIsNearest(entries, cleared, line, rules, |entries|);
    forall k: nat, j: nat | k < |entries|
      ensures AnswersTo(entries, k, j, cleared, line, rules.days) <==>
              FitsExactly(entries[k], k, j, cleared, line, rules)
    {
      AnswersFit(entries, k, j, cleared, line, rules);
    }
  }

  lemma WholeDecided(entries: Entries, cleared: set<Ref>, line: BankLine, rules: Rules)
    requires line.amount >= 0
    ensures var r := FirstExactSettlement(entries, cleared, line, rules, |entries|);
            && (r.Some? <==> HasWhole(entries, cleared, line, rules))
            && (r.Some? ==>
                  && LegOf(entries[r.value], line).Some?
                  && IsWholeChoice(entries, Ref(r.value, LegOf(entries[r.value], line).value), cleared, line, rules))
  {
    FirstWhole(entries, cleared, line, rules, |entries|);
    forall k: nat, j: nat | k < |entries|
      ensures PaysWhole(entries, k, j, cleared, line, rules.days) <==>
              SettlesExactly(entries[k], k, cleared, line, rules) && LegOf(entries[k], line) == Some(j)
    {
      PaysFit(entries, k, j, cleared, line, rules);
    }
  }

  lemma {:induction false} FirstWhole(entries: Entries, cleared: set<Ref>, line: BankLine, rules: Rules, n: nat)
    requires n <= |entries|
    ensures var r := FirstExactSettlement(entries, cleared, line, rules, n);
            forall k :: 0 <= k < n && SettlesExactly(entries[k], k, cleared, line, rules) ==> r.Some? && r.value <= k
  {
    if n > 0 { FirstWhole(entries, cleared, line, rules, n - 1); }
  }

  lemma LessDecided(entries: Entries, cleared: set<Ref>, line: BankLine, rules: Rules)
    requires line.amount >= 0
    ensures var r := FirstFeeSettlement(entries, cleared, line, rules, |entries|);
            && (r.Some? <==> HasLess(entries, cleared, line, rules))
            && (r.Some? ==>
                  && LegOf(entries[r.value], line).Some?
                  && IsLessChoice(entries, Ref(r.value, LegOf(entries[r.value], line).value), cleared, line, rules))
  {
    FirstLess(entries, cleared, line, rules, |entries|);
    forall k: nat, j: nat | k < |entries|
      ensures PaysLess(entries, k, j, cleared, line, rules) <==>
              SettlesLessFee(entries[k], k, cleared, line, rules) && LegOf(entries[k], line) == Some(j)
    {
      LessFits(entries, k, j, cleared, line, rules);
    }
  }

  lemma {:induction false} FirstLess(entries: Entries, cleared: set<Ref>, line: BankLine, rules: Rules, n: nat)
    requires n <= |entries|
    ensures var r := FirstFeeSettlement(entries, cleared, line, rules, n);
            forall k :: 0 <= k < n && SettlesLessFee(entries[k], k, cleared, line, rules) ==> r.Some? && r.value <= k
  {
    if n > 0 { FirstLess(entries, cleared, line, rules, n - 1); }
  }

  /** The rules, in order: an exact match if and only if some line answers to the bank line; else, for money in, a
      settlement if and only if one paid out just that; else a settlement less its fee if and only if fees are
      allowed and one is short by no more than they are; else a proposal. */
  lemma RuleTaken(entries: Entries, cleared: set<Ref>, line: BankLine, rules: Rules)
    ensures var d := Decide(entries, cleared, line, rules);
            var exact, whole := HasExact(entries, cleared, line, rules), HasWhole(entries, cleared, line, rules);
            var less := rules.maxFeeRatio > 0.0 && HasLess(entries, cleared, line, rules);
            && (d.TakeExact? <==> exact)
            && (d.TakeSettlement? <==> !exact && line.amount >= 0 && whole)
            && (d.TakeLessFee? <==> !exact && line.amount >= 0 && !whole && less)
            && (d.Propose? <==> !exact && (line.amount < 0 || (!whole && !less)))
            && (d.TakeExact? ==> IsExactChoice(entries, d.at, cleared, line, rules))
            && (d.TakeSettlement? ==> IsWholeChoice(entries, d.at, cleared, line, rules))
            && (d.TakeLessFee? ==>
                  && IsLessChoice(entries, d.at, cleared, line, rules)
                  && d.fee == Gross(entries[d.at.entry]) - line.amount)
  {
    ExactDecided(entries, cleared, line, rules);
    if line.amount >= 0 {
      WholeDecided(entries, cleared, line, rules);
      LessDecided(entries, cleared, line, rules);
    }
  }

  // ---- What a turn leaves behind ----

  /** The fee of settlement `k` moved out of the bank account. */
  predicate IsFee(e: JournalEntry, line: BankLine, k: nat, fee: int, rules: Rules) {
    && e.date == line.date && e.sourceType == DocKind.BankLine && e.sourceId == "authnet-fee:" + Digits(k)
    && e.reversalOf.None? && !e.isFlagged
    && e.lines == [JournalLine.JournalLine("6700", fee, 0, rules.feeClass),
                   JournalLine.JournalLine(line.account, 0, fee, "")]
  }

  /** The book with line `i` in the state it was put in, and what that clears. */
  function WithLine(book: Book, i: nat, state: MatchState, cleared: set<Ref>): Book
    requires i < |book.lines|
  {
    Book(book.entries, book.cleared + cleared, book.statements,
         book.lines[i := book.lines[i].(state := state)], book.locked)
  }

  ghost predicate ExactTurn(was: Book, i: nat, rules: Rules, report: MatchReport, now: Progress, at: Ref)
    requires i < |was.lines|
  {
    && IsExactChoice(was.entries, at, was.cleared, was.lines[i], rules)
    && now == Progress(WithLine(was, i, ExactMatch(at), {at}), report.(exact := report.exact + 1), true)
  }

  ghost predicate WholeTurn(was: Book, i: nat, rules: Rules, report: MatchReport, now: Progress, at: Ref)
    requires i < |was.lines|
  {
    && IsWholeChoice(was.entries, at, was.cleared, was.lines[i], rules)
    && now == Progress(WithLine(was, i, SettlementMatch(at), {at}), report.(settlement := report.settlement + 1), true)
  }

  /** The leg is cleared whether or not the fee is taken; a fee that is not taken stops the match. */
  ghost predicate LessTurn(was: Book, i: nat, rules: Rules, accepts: JournalEntry -> bool, report: MatchReport,
                           now: Progress, at: Ref, fee: JournalEntry)
    requires i < |was.lines|
  {
    && IsLessChoice(was.entries, at, was.cleared, was.lines[i], rules)
    && IsFee(fee, was.lines[i], at.entry, Gross(was.entries[at.entry]) - was.lines[i].amount, rules)
    && var marked := WithLine(was, i, SettlementMatch(at), {at});
       now == if (was.locked.None? || was.locked.value < fee.date) && accepts(fee) then
                Progress(marked.(entries := was.entries + [fee]),
                         report.(settlementFee := report.settlementFee + 1), true)
              else Progress(marked, report, false)
  }

  /** Line `i` of `was`, unmatched, has been put through the rules. */
  ghost predicate TurnTaken(was: Book, i: nat, rules: Rules, accepts: JournalEntry -> bool, report: MatchReport,
                            now: Progress)
    requires i < |was.lines|
  {
    var line := was.lines[i];
    if HasExact(was.entries, was.cleared, line, rules) then
      exists at :: ExactTurn(was, i, rules, report, now, at)
    else if line.amount >= 0 && HasWhole(was.entries, was.cleared, line, rules) then
      exists at :: WholeTurn(was, i, rules, report, now, at)
    else if line.amount >= 0 && rules.maxFeeRatio > 0.0 && HasLess(was.entries, was.cleared, line, rules) then
      exists at, fee :: LessTurn(was, i, rules, accepts, report, now, at, fee)
    else
      now == Progress(WithLine(was, i, Proposed, {}), report.(proposals := report.proposals + [i]), true)
  }

  /** A line's turn leaves the match state, the cleared line, the fee and the count its rule says. */
  lemma TurnLeaves(book: Book, i: nat, rules: Rules, accepts: JournalEntry -> bool, report: MatchReport)
    requires i < |book.lines| && book.lines[i].state.Unmatched?
    ensures TurnTaken(book, i, rules, accepts, report, Tried(Progress(book, report, true), i, rules, accepts))
  {
    var line, d := book.lines[i], DecisionFor(book, i, rules);
    var now := Tried(Progress(book, report, true), i, rules, accepts);
    RuleTaken(book.entries, book.cleared, line, rules);
    match d
    case TakeExact(at) =>
      assert ExactTurn(book, i, rules, report, now, at);
    case TakeSettlement(at) =>
      assert WholeTurn(book, i, rules, report, now, at);
    case TakeLessFee(at, fee) =>
      var e := FeeEntry(line, at.entry, fee, rules);
      TwoLines(e, line.account);
      assert LessTurn(book, i, rules, accepts, report, now, at, e);
    case Propose =>
  }

  // ---- What a whole match reports ----

  function NewExact(was: Book, now: Book): set<nat> {
    set i: nat | i < |was.lines| && i < |now.lines| && was.lines[i].state.Unmatched? && now.lines[i].state.ExactMatch?
  }

  /** The settlements just matched that `moved` more out of clearing than the bank received, or just that. */
  function NewSettled(was: Book, now: Book, less: bool): set<nat> {
    set i: nat | i < |was.lines| && i < |now.lines| && was.lines[i].state.Unmatched? &&
        now.lines[i].state.SettlementMatch? && now.lines[i].state.at.entry < |now.entries| &&
        (Gross(now.entries[now.lines[i].state.at.entry]) != now.lines[i].amount) == less
  }

  function NewProposed(was: Book, now: Book): set<nat> {
    set i: nat | i < |was.lines| && i < |now.lines| && was.lines[i].state.Unmatched? && now.lines[i].state.Proposed?
  }

  /** A report counts the lines by what became of them; each fee is one entry more. */
  ghost predicate Counts(was: Book, now: Book, report: MatchReport) {
    && report.exact == |NewExact(was, now)|
    && report.settlement == |NewSettled(was, now, false)|
    && report.settlementFee == |NewSettled(was, now, true)| && |now.entries| == |was.entries| + report.settlementFee
    && |report.proposals| == |NewProposed(was, now)|
    && forall i :: i in report.proposals <==> i in NewProposed(was, now)
  }

  /** Only the unmatched lines of the statement are touched. */
  predicate OnlyOn(was: Book, now: Book, statement: nat) {
    |now.lines| == |was.lines| &&
    forall i :: 0 <= i < |was.lines| && (was.lines[i].statement != statement || !was.lines[i].state.Unmatched?) ==>
      now.lines[i] == was.lines[i]
  }

  /** Line `i` alone has left the unmatched. */
  predicate OneMoved(a: Book, b: Book, i: nat) {
    && i < |a.lines| && |b.lines| == |a.lines| && a.lines[i].state.Unmatched? && !b.lines[i].state.Unmatched?
    && b.lines[i] == a.lines[i].(state := b.lines[i].state)
    && (forall j :: 0 <= j < |a.lines| && j != i ==> b.lines[j] == a.lines[j])
    && a.entries <= b.entries
  }

  /** Line `i` was matched to a settlement, `less` a fee or for just what it moved. */
  predicate IsSettled(b: Book, i: nat, less: bool) {
    && i < |b.lines| && b.lines[i].state.SettlementMatch? && b.lines[i].state.at.entry < |b.entries|
    && (Gross(b.entries[b.lines[i].state.at.entry]) != b.lines[i].amount) == less
  }

  /** The report after a turn counts what became of line `i`. */
  predicate Counted(a: Book, b: Book, i: nat, before: MatchReport, after: MatchReport)
    requires i < |b.lines|
  {
    && after.exact == before.exact + (if b.lines[i].state.ExactMatch? then 1 else 0)
    && after.settlement == before.settlement + (if IsSettled(b, i, false) then 1 else 0)
    && after.settlementFee == before.settlementFee + (if IsSettled(b, i, true) then 1 else 0)
    && |b.entries| == |a.entries| + (if IsSettled(b, i, true) then 1 else 0)
    && after.proposals == before.proposals + (if b.lines[i].state.Proposed? then [i] else [])
  }

  lemma ExactMoves(was: Book, i: nat, rules: Rules, report: MatchReport, now: Progress, at: Ref)
    requires i < |was.lines| && was.lines[i].state.Unmatched? && ExactTurn(was, i, rules, report, now, at)
    ensures OneMoved(was, now.book, i) && Counted(was, now.book, i, report, now.report)
  {}

  lemma WholeMoves(was: Book, i: nat, rules: Rules, report: MatchReport, now: Progress, at: Ref)
    requires i < |was.lines| && was.lines[i].state.Unmatched? && WholeTurn(was, i, rules, report, now, at)
    ensures OneMoved(was, now.book, i) && Counted(was, now.book, i, report, now.report)
  {}

  lemma LessMoves(was: Book, i: nat, rules: Rules, accepts: JournalEntry -> bool, report: MatchReport, now: Progress,
                  at: Ref, fee: JournalEntry)
    requires i < |was.lines| && was.lines[i].state.Unmatched? && now.ok
    requires LessTurn(was, i, rules, accepts, report, now, at, fee)
    ensures OneMoved(was, now.book, i) && Counted(was, now.book, i, report, now.report)
  {}

  lemma TurnMoves(was: Book, i: nat, rules: Rules, accepts: JournalEntry -> bool, report: MatchReport, now: Progress)
    requires i < |was.lines| && was.lines[i].state.Unmatched?
    requires TurnTaken(was, i, rules, accepts, report, now) && now.ok
    ensures OneMoved(was, now.book, i) && Counted(was, now.book, i, report, now.report)
  {
    if at :| ExactTurn(was, i, rules, report, now, at) {
      ExactMoves(was, i, rules, report, now, at);
    } else if at :| WholeTurn(was, i, rules, report, now, at) {
      WholeMoves(was, i, rules, report, now, at);
    } else if at, fee :| LessTurn(was, i, rules, accepts, report, now, at, fee) {
      LessMoves(was, i, rules, accepts, report, now, at, fee);
    }
  }

  /** Settlements matched before are matched to entries the journal still has. */
  predicate SettledFit(book: Book) {
    forall j :: 0 <= j < |book.lines| && book.lines[j].state.SettlementMatch? ==>
      book.lines[j].state.at.entry < |book.entries|
  }

  lemma OneMore(a: set<nat>, b: set<nat>, i: nat, joins: bool)
    requires i !in a && forall j :: j in b <==> j in a || (joins && j == i)
    ensures b == a + (if joins then {i} else {}) && |b| == |a| + (if joins then 1 else 0)
  {
    assert b == a + (if joins then {i} else {});
  }

  lemma SettledCount(was: Book, a: Book, b: Book, i: nat, less: bool)
    requires OneMoved(a, b, i) && SettledFit(a) && |was.lines| == |a.lines| && was.lines[i].state.Unmatched?
    ensures |NewSettled(was, b, less)| == |NewSettled(was, a, less)| + (if IsSettled(b, i, less) then 1 else 0)
  {
    OneMore(NewSettled(was, a, less), NewSettled(was, b, less), i, IsSettled(b, i, less));
  }

  lemma ExactCount(was: Book, a: Book, b: Book, i: nat)
    requires OneMoved(a, b, i) && |was.lines| == |a.lines| && was.lines[i].state.Unmatched?
    ensures |NewExact(was, b)| == |NewExact(was, a)| + (if b.lines[i].state.ExactMatch? then 1 else 0)
  {
    OneMore(NewExact(was, a), NewExact(was, b), i, b.lines[i].state.ExactMatch?);
  }

  lemma ProposedCount(was: Book, a: Book, b: Book, i: nat)
    requires OneMoved(a, b, i) && |was.lines| == |a.lines| && was.lines[i].state.Unmatched?
    ensures |NewProposed(was, b)| == |NewProposed(was, a)| + (if b.lines[i].state.Proposed? then 1 else 0)
    ensures NewProposed(was, b) == NewProposed(was, a) + (if b.lines[i].state.Proposed? then {i} else {})
  {
    OneMore(NewProposed(was, a), NewProposed(was, b), i, b.lines[i].state.Proposed?);
  }

  lemma TurnCounts(was: Book, a: Book, b: Book, i: nat, before: MatchReport, after: MatchReport)
    requires OneMoved(a, b, i) && SettledFit(a) && |was.lines| == |a.lines| && was.lines[i].state.Unmatched?
    requires Counts(was, a, before) && Counted(a, b, i, before, after)
    ensures Counts(was, b, after)
  {
    SettledCount(was, a, b, i, true);
    SettledCount(was, a, b, i, false);
    ExactCount(was, a, b, i);
    ProposedCount(was, a, b, i);
  }

  lemma SoundFits(book: Book)
    requires MatchesFit(book)
    ensures SettledFit(book)
  {
    forall j | 0 <= j < |book.lines| && book.lines[j].state.SettlementMatch?
      ensures book.lines[j].state.at.entry < |book.entries|
    {
      assert IsPlace(book, book.lines[j].state.at);
    }
  }

  lemma OnlyOnMore(was: Book, a: Book, b: Book, statement: nat, i: nat)
    requires OnlyOn(was, a, statement) && OneMoved(a, b, i)
    requires was.lines[i].statement == statement && was.lines[i].state.Unmatched?
    ensures OnlyOn(was, b, statement)
  {}

  lemma CountsNone(book: Book, statement: nat)
    ensures Counts(book, book, NO_MATCHES) && OnlyOn(book, book, statement)
  {
    assert NewExact(book, book) == {} && NewProposed(book, book) == {};
    assert NewSettled(book, book, true) == {} && NewSettled(book, book, false) == {};
  }

  lemma TriedCounts(was: Book, p: Progress, statement: nat, i: nat, rules: Rules, accepts: JournalEntry -> bool)
    requires Grows(was, p.book) && MatchesFit(p.book) && p.ok && |p.book.lines| == |was.lines| && i < |was.lines|
    requires was.lines[i].statement == statement && p.book.lines[i].state.Unmatched?
    requires Tried(p, i, rules, accepts).ok && Counts(was, p.book, p.report) && OnlyOn(was, p.book, statement)
    ensures var q := Tried(p, i, rules, accepts);
            Counts(was, q.book, q.report) && OnlyOn(was, q.book, statement)
  {
    assert LineMoved(was.lines[i], p.book.lines[i]);
    var q := Tried(p, i, rules, accepts);
    assert p == Progress(p.book, p.report, true);
    TurnLeaves(p.book, i, rules, accepts, p.report);
    TurnMoves(p.book, i, rules, accepts, p.report, q);
    SoundFits(p.book);
    TurnCounts(was, p.book, q.book, i, p.report, q.report);
    OnlyOnMore(was, p.book, q.book, statement, i);
  }

  /** As long as nothing was refused, the report counts what became of the statement's lines and of no others. */
  ghost predicate CountedOn(was: Book, p: Progress, statement: nat) {
    p.ok ==> Counts(was, p.book, p.report) && OnlyOn(was, p.book, statement)
  }

  lemma StepCounts(was: Book, p: Progress, statement: nat, i: nat, rules: Rules, accepts: JournalEntry -> bool)
    requires Reached(was, p.book) && CountedOn(was, p, statement)
    requires |p.book.lines| == |was.lines| && i < |was.lines| && was.lines[i].statement == statement
    ensures CountedOn(was, Tried(p, i, rules, accepts), statement)
  {
    var q := Tried(p, i, rules, accepts);
    if q.ok && p.book.lines[i].state.Unmatched? { TriedCounts(was, p, statement, i, rules, accepts); }
  }

  /** A match that is not refused reports exactly what became of the lines, and leaves all others alone. */
  lemma {:induction false} MatchCounts(book: Book, statement: nat, order: seq<nat>, rules: Rules,
                                       accepts: JournalEntry -> bool, n: nat)
    requires Sound(book) && IsOpen(book, statement) && AllOn(order, book.lines, statement) && n <= |order|
    ensures CountedOn(book, MatchedUpTo(book, order, rules, accepts, n), statement)
    decreases n
  {
    if n == 0 {
      CountsNone(book, statement);
    } else {
      MatchCounts(book, statement, order, rules, accepts, n - 1);
      MatchingKeeps(book, statement, order, rules, accepts, n - 1);
      StepCounts(book, MatchedUpTo(book, order, rules, accepts, n - 1), statement, order[n - 1], rules, accepts);
    }
  }

  // ---- Importing ----

  /** No earlier line of the file and no line before it carries this one's bank id. */
  predicate IsFresh(lines: seq<BankLine>, account: string, parsed: seq<ParsedLine>, k: nat)
    requires k < |parsed|
  {
    parsed[k].externalId.Some? ==>
      && (forall i :: 0 <= i < |lines| && lines[i].account == account ==> lines[i].externalId != parsed[k].externalId)
      && forall j :: 0 <= j < k ==> parsed[j].externalId != parsed[k].externalId
  }

  /** The fresh lines of the file, as they were read, on the new statement. */
  function FreshLines(lines: seq<BankLine>, statement: nat, account: string, parsed: seq<ParsedLine>,
                      n: nat): seq<BankLine>
    requires n <= |parsed|
  {
    if n == 0 then []
    else
      var p := parsed[n - 1];
      FreshLines(lines, statement, account, parsed, n - 1) +
      (if !IsFresh(lines, account, parsed, n - 1) then []
       else [BankLine.BankLine(statement, account, p.date, p.amount, p.description, p.externalId, Unmatched)])
  }

  /** An id is on the account after an import if and only if it was there or the file has it. */
  lemma {:induction false} SeenAfter(lines: seq<BankLine>, statement: nat, account: string, parsed: seq<ParsedLine>,
                                     n: nat, id: string)
    requires n <= |parsed|
    ensures var now := Imported(lines, statement, account, parsed, n);
            Seen(now, account, id, |now|) <==>
            Seen(lines, account, id, |lines|) || exists j :: 0 <= j < n && parsed[j].externalId == Some(id)
  {
    if n > 0 {
      SeenAfter(lines, statement, account, parsed, n - 1, id);
      var was := Imported(lines, statement, account, parsed, n - 1);
      var now := Imported(lines, statement, account, parsed, n);
      if now != was {
        assert now[|was|] == NewLine(statement, account, parsed[n - 1]);
        assert forall i :: 0 <= i < |was| ==> now[i] == was[i];
      }
    }
  }

  /** An import adds exactly the fresh lines, in the order of the file. */
  lemma {:induction false} ImportAddsFresh(lines: seq<BankLine>, statement: nat, account: string,
                                           parsed: seq<ParsedLine>, n: nat)
    requires n <= |parsed|
    ensures Imported(lines, statement, account, parsed, n) ==
            lines + FreshLines(lines, statement, account, parsed, n)
    decreases n
  {
    if n > 0 {
      ImportAddsFresh(lines, statement, account, parsed, n - 1);
      var p := parsed[n - 1];
      if p.externalId.Some? { SeenAfter(lines, statement, account, parsed, n - 1, p.externalId.value); }
    }
  }

  // ---- Confirming ----

  /** What a confirmation posts: the size of the line, into the bank and out of the account it was confirmed to. */
  predicate IsConfirmation(e: JournalEntry, line: BankLine, i: nat, account: string, class': string) {
    var size := if line.amount < 0 then -line.amount else line.amount;
    && e.date == line.date && e.sourceType == DocKind.BankLine && e.sourceId == "bankline-" + Digits(i)
    && e.reversalOf.None? && !e.isFlagged
    && e.memo == Some("bank line " + Digits(i) + ": " + line.description)
    && e.lines == [JournalLine.JournalLine(line.account, size, 0, ""),
                   JournalLine.JournalLine(account, 0, size, class')]
  }
}
