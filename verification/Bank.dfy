/** Bank statements: importing lines, matching them to the journal, confirming what is left, and the close. */
module Bank {
  import opened Wrappers
  import opened Documents
  import opened Journal
  import Ordering

  const AUTHNET_CLEARING := "1160"
  const MERCHANT_FEES := "6700"

  /** A line of a journal entry, both by place. */
  datatype Ref = Ref(entry: nat, line: nat)

  datatype MatchState =
    | Unmatched | Proposed | ExactMatch(at: Ref) | SettlementMatch(at: Ref) | ManualMatch(at: Ref)

  /** Positive is money in. A line is known by its place. */
  datatype BankLine = BankLine(
    statement: nat, account: string, date: int, amount: int, description: string,
    externalId: Option<string>, state: MatchState)

  datatype Statement = Statement(
    account: string, from: int, through: int, opening: int, closing: int, closedAt: Option<int>)

  datatype ParsedLine = ParsedLine(date: int, amount: int, description: string, externalId: Option<string>)

  datatype Rules = Rules(days: int, maxFeeRatio: real, feeClass: string)

  /** Everything the bank steps read and write. */
  datatype Book = Book(
    entries: Entries, cleared: set<Ref>, statements: seq<Statement>, lines: seq<BankLine>, locked: Option<int>)

  datatype BankError =
    | NotFound | StatementClosed(statement: nat) | NotAProposal(line: nat) | EntryRefused | NothingToPost
    | DoesNotClose(difference: int, unmatched: nat)

  datatype MatchReport = MatchReport(exact: nat, settlement: nat, settlementFee: nat, proposals: seq<nat>)

  const NO_MATCHES := MatchReport(0, 0, 0, [])

  // ---- What a line may match ----

  predicate MoneyIn(line: BankLine) { line.amount >= 0 }

  function Size(line: BankLine): nat { if line.amount >= 0 then line.amount else -line.amount }

  predicate Near(e: JournalEntry, line: BankLine, rules: Rules) {
    line.date - rules.days <= e.date <= line.date + rules.days
  }

  predicate IsExactKind(kind: DocKind) { kind.Payment? || kind.Deposit? || kind.BillPayment? || kind.Purchase? }

  predicate IsSettlementKind(kind: DocKind) { kind.Settlement? || kind.Deposit? }

  function SideOf(l: JournalLine, moneyIn: bool): int { if moneyIn then l.debit else l.credit }

  /** Line `j` of entry `k` has the bank line's amount on the side that moved the account its way. */
  predicate FitsExactly(e: JournalEntry, k: nat, j: nat, cleared: set<Ref>, line: BankLine, rules: Rules) {
    && j < |e.lines| && IsExactKind(e.sourceType) && Near(e, line, rules)
    && e.lines[j].account == line.account && SideOf(e.lines[j], MoneyIn(line)) == Size(line)
    && Ref(k, j) !in cleared
  }

  function FirstFit(e: JournalEntry, k: nat, cleared: set<Ref>, line: BankLine, rules: Rules, m: nat): Option<nat>
    requires m <= |e.lines|
  {
    if m == 0 then None
    else
      var earlier := FirstFit(e, k, cleared, line, rules, m - 1);
      if earlier.Some? then earlier
      else if FitsExactly(e, k, m - 1, cleared, line, rules) then Some(m - 1)
      else None
  }

  function Distance(e: JournalEntry, line: BankLine): nat {
    if e.date >= line.date then e.date - line.date else line.date - e.date
  }

  /** Nearer the bank line's date; the earlier of two as near. */
  predicate Nearer(a: JournalEntry, b: JournalEntry, line: BankLine) {
    Distance(a, line) < Distance(b, line) || (Distance(a, line) == Distance(b, line) && a.date < b.date)
  }

  /** The nearest fit among the first `n` entries. */
  function Nearest(entries: Entries, cleared: set<Ref>, line: BankLine, rules: Rules, n: nat): (r: Option<Ref>)
    requires n <= |entries|
    ensures r.Some? ==> r.value.entry < n
  {
    if n == 0 then None
    else
      var best := Nearest(entries, cleared, line, rules, n - 1);
      match FirstFit(entries[n - 1], n - 1, cleared, line, rules, |entries[n - 1].lines|)
      case None => best
      case Some(j) =>
        if best.None? || Nearer(entries[n - 1], entries[best.value.entry], line) then Some(Ref(n - 1, j)) else best
  }

  function CreditsTo(lines: seq<JournalLine>, account: string, n: nat): int
    requires n <= |lines|
  {
    if n == 0 then 0
    else CreditsTo(lines, account, n - 1) + (if lines[n - 1].account == account then lines[n - 1].credit else 0)
  }

  predicate Touches(lines: seq<JournalLine>, account: string, n: nat)
    requires n <= |lines|
  {
    exists i :: 0 <= i < n && lines[i].account == account
  }

  /** What an entry moved out of Authorize.net clearing. */
  function Gross(e: JournalEntry): int { CreditsTo(e.lines, AUTHNET_CLEARING, |e.lines|) }

  /** The entry's own debit to the bank account. */
  function BankLeg(lines: seq<JournalLine>, account: string, n: nat): (r: Option<nat>)
    requires n <= |lines|
    ensures r.Some? ==> r.value < n
  {
    if n == 0 then None
    else
      var earlier := BankLeg(lines, account, n - 1);
      if earlier.Some? then earlier
      else if lines[n - 1].account == account && lines[n - 1].debit != 0 then Some(n - 1)
      else None
  }

  function LegOf(e: JournalEntry, line: BankLine): Option<nat> { BankLeg(e.lines, line.account, |e.lines|) }

  /** An entry out of clearing, near the line, whose bank leg nothing has cleared. */
  predicate IsOpenSettlement(e: JournalEntry, k: nat, cleared: set<Ref>, line: BankLine, rules: Rules) {
    && IsSettlementKind(e.sourceType) && Near(e, line, rules) && Touches(e.lines, AUTHNET_CLEARING, |e.lines|)
    && LegOf(e, line).Some? && Ref(k, LegOf(e, line).value) !in cleared
  }

  predicate SettlesExactly(e: JournalEntry, k: nat, cleared: set<Ref>, line: BankLine, rules: Rules) {
    Gross(e) == Size(line) && IsOpenSettlement(e, k, cleared, line, rules)
  }

  /** `fee_ratio` is within the rules: the shortfall is a plausible fee. */
  predicate IsPlausibleFee(gross: int, net: int, rules: Rules) {
    gross != 0 && gross - net > 0 && (gross - net) as real / gross as real <= rules.maxFeeRatio
  }

  predicate SettlesLessFee(e: JournalEntry, k: nat, cleared: set<Ref>, line: BankLine, rules: Rules) {
    && Gross(e) >= Size(line) && IsPlausibleFee(Gross(e), Size(line), rules)
    && IsOpenSettlement(e, k, cleared, line, rules)
  }

  function FirstExactSettlement(entries: Entries, cleared: set<Ref>, line: BankLine, rules: Rules,
                                n: nat): (r: Option<nat>)
    requires n <= |entries|
    ensures r.Some? ==> r.value < n && SettlesExactly(entries[r.value], r.value, cleared, line, rules)
    ensures r.None? ==> forall k :: 0 <= k < n ==> !SettlesExactly(entries[k], k, cleared, line, rules)
  {
    if n == 0 then None
    else
      var earlier := FirstExactSettlement(entries, cleared, line, rules, n - 1);
      if earlier.Some? then earlier
      else if SettlesExactly(entries[n - 1], n - 1, cleared, line, rules) then Some(n - 1)
      else None
  }

  function FirstFeeSettlement(entries: Entries, cleared: set<Ref>, line: BankLine, rules: Rules,
                              n: nat): (r: Option<nat>)
    requires n <= |entries|
    ensures r.Some? ==> r.value < n && SettlesLessFee(entries[r.value], r.value, cleared, line, rules)
    ensures r.None? ==> forall k :: 0 <= k < n ==> !SettlesLessFee(entries[k], k, cleared, line, rules)
  {
    if n == 0 then None
    else
      var earlier := FirstFeeSettlement(entries, cleared, line, rules, n - 1);
      if earlier.Some? then earlier
      else if SettlesLessFee(entries[n - 1], n - 1, cleared, line, rules) then Some(n - 1)
      else None
  }

  datatype Decision = TakeExact(at: Ref) | TakeSettlement(at: Ref) | TakeLessFee(at: Ref, fee: int) | Propose

  /** The match rules, in order. */
  function Decide(entries: Entries, cleared: set<Ref>, line: BankLine, rules: Rules): Decision {
    var exact := Nearest(entries, cleared, line, rules, |entries|);
    if exact.Some? then TakeExact(exact.value)
    else if !MoneyIn(line) then Propose
    else
      var whole := FirstExactSettlement(entries, cleared, line, rules, |entries|);
      if whole.Some? then TakeSettlement(Ref(whole.value, LegOf(entries[whole.value], line).value))
      else if rules.maxFeeRatio <= 0.0 then Propose
      else
        var less := FirstFeeSettlement(entries, cleared, line, rules, |entries|);
        if less.Some? then
          TakeLessFee(Ref(less.value, LegOf(entries[less.value], line).value), Gross(entries[less.value]) - line.amount)
        else Propose
  }

  // ---- What a bank line posts ----

  function Digits(n: nat): string {
    if n < 10 then [('0' as int + n) as char] else Digits(n / 10) + [('0' as int + n % 10) as char]
  }

  function Debit(account: string, amount: int, class': string): JournalLine {
    JournalLine.JournalLine(account, amount, 0, class')
  }

  function Credit(account: string, amount: int, class': string): JournalLine {
    JournalLine.JournalLine(account, 0, amount, class')
  }

  /** A bank line document's entry: a negative amount is money out, and zero posts nothing. */
  function BankLineEntry(id: string, date: int, memo: string, bank: string, account: string, class': string,
                         amount: int): JournalEntry {
    JournalEntry.JournalEntry(date, Some(memo), DocKind.BankLine, id, 1, None, false,
      if amount < 0 then [Debit(account, -amount, class'), Credit(bank, -amount, "")]
      else if amount > 0 then [Debit(bank, amount, ""), Credit(account, amount, class')]
      else [])
  }

  function FeeEntry(line: BankLine, k: nat, fee: int, rules: Rules): JournalEntry {
    BankLineEntry("authnet-fee:" + Digits(k), line.date, "Authorize.net processing fee for settlement " + Digits(k),
                  line.account, MERCHANT_FEES, rules.feeClass, -fee)
  }

  /** What confirming posts: the amount without its sign, whichever way the money went. */
  function ConfirmedEntry(line: BankLine, i: nat, account: string, class': string): JournalEntry {
    BankLineEntry("bankline-" + Digits(i), line.date, "bank line " + Digits(i) + ": " + line.description,
                  line.account, account, class', Size(line))
  }

  /** What the journal takes: balanced, in an open period, and by the class rule. */
  predicate Takes(book: Book, e: JournalEntry, accepts: JournalEntry -> bool) {
    (book.locked.None? || e.date > book.locked.value) && IsBalanced(e) && accepts(e)
  }

  function Posted(book: Book, e: JournalEntry, accepts: JournalEntry -> bool): Book {
    if Takes(book, e, accepts) then book.(entries := book.entries + [e]) else book
  }

  function Marked(book: Book, i: nat, state: MatchState, cleared: set<Ref>): Book
    requires i < |book.lines|
  {
    book.(lines := book.lines[i := book.lines[i].(state := state)], cleared := book.cleared + cleared)
  }

  /** What a decision does; the fee is posted only after the leg is cleared. */
  function Applied(book: Book, i: nat, d: Decision, rules: Rules, accepts: JournalEntry -> bool): Book
    requires i < |book.lines|
  {
    match d
    case TakeExact(at) => Marked(book, i, ExactMatch(at), {at})
    case TakeSettlement(at) => Marked(book, i, SettlementMatch(at), {at})
    case TakeLessFee(at, fee) =>
      Posted(Marked(book, i, SettlementMatch(at), {at}), FeeEntry(book.lines[i], at.entry, fee, rules), accepts)
    case Propose => Marked(book, i, Proposed, {})
  }

  /** A match is refused only when the journal does not take its fee. */
  predicate Refused(book: Book, i: nat, d: Decision, rules: Rules, accepts: JournalEntry -> bool)
    requires i < |book.lines|
  {
    d.TakeLessFee? && !Takes(book, FeeEntry(book.lines[i], d.at.entry, d.fee, rules), accepts)
  }

  function Reported(report: MatchReport, i: nat, d: Decision): MatchReport {
    match d
    case TakeExact(_) => report.(exact := report.exact + 1)
    case TakeSettlement(_) => report.(settlement := report.settlement + 1)
    case TakeLessFee(_, _) => report.(settlementFee := report.settlementFee + 1)
    case Propose => report.(proposals := report.proposals + [i])
  }

  function DecisionFor(book: Book, i: nat, rules: Rules): Decision
    requires i < |book.lines|
  {
    Decide(book.entries, book.cleared, book.lines[i], rules)
  }

  datatype Progress = Progress(book: Book, report: MatchReport, ok: bool)

  /** One line put through the rules, unless something before it was refused or it is past matching. */
  function Tried(p: Progress, i: nat, rules: Rules, accepts: JournalEntry -> bool): (q: Progress)
    requires i < |p.book.lines|
    ensures |q.book.lines| == |p.book.lines|
  {
    if !p.ok || !p.book.lines[i].state.Unmatched? then p
    else
      var d := DecisionFor(p.book, i, rules);
      var book := Applied(p.book, i, d, rules, accepts);
      if Refused(p.book, i, d, rules, accepts) then Progress(book, p.report, false)
      else Progress(book, Reported(p.report, i, d), true)
  }

  predicate AreLines(order: seq<nat>, lines: seq<BankLine>) { forall k :: 0 <= k < |order| ==> order[k] < |lines| }

  /** The statement after its first `n` lines, in order, have been through the rules; a refusal stops it there. */
  function MatchedUpTo(book: Book, order: seq<nat>, rules: Rules, accepts: JournalEntry -> bool, n: nat): (p: Progress)
    requires n <= |order| && AreLines(order, book.lines)
    ensures |p.book.lines| == |book.lines|
  {
    if n == 0 then Progress(book, NO_MATCHES, true)
    else Tried(MatchedUpTo(book, order, rules, accepts, n - 1), order[n - 1], rules, accepts)
  }

  // ---- The order of a statement's lines ----

  function DateOf(lines: seq<BankLine>, i: nat): int { if i < |lines| then lines[i].date else 0 }

  function Earlier(lines: seq<BankLine>): (nat, nat) -> bool {
    (i: nat, j: nat) => DateOf(lines, i) < DateOf(lines, j) || (DateOf(lines, i) == DateOf(lines, j) && i < j)
  }

  lemma EarlierIsTotal(lines: seq<BankLine>)
    ensures Ordering.TotalOrder(Earlier(lines))
  {}

  function LinesOf(lines: seq<BankLine>, statement: nat): set<nat> {
    set i: nat | i < |lines| && lines[i].statement == statement
  }

  /** `list_bank_lines`: by date, then as imported. */
  ghost function InOrder(lines: seq<BankLine>, statement: nat): (order: seq<nat>)
    ensures AreLines(order, lines) && forall k :: 0 <= k < |order| ==> lines[order[k]].statement == statement
    ensures forall i :: 0 <= i < |lines| && lines[i].statement == statement ==> i in order
    ensures forall j, k :: 0 <= j < k < |order| ==>
              lines[order[j]].date < lines[order[k]].date ||
              (lines[order[j]].date == lines[order[k]].date && order[j] < order[k])
  {
    EarlierIsTotal(lines);
    var order := Ordering.Sorted(LinesOf(lines, statement), Earlier(lines));
    assert forall k :: 0 <= k < |order| ==> order[k] in order;
    order
  }

  // ---- Importing and closing ----

  predicate Seen(lines: seq<BankLine>, account: string, externalId: string, n: nat)
    requires n <= |lines|
  {
    exists i :: 0 <= i < n && lines[i].account == account && lines[i].externalId == Some(externalId)
  }

  predicate IsDuplicate(lines: seq<BankLine>, account: string, parsed: ParsedLine) {
    parsed.externalId.Some? && Seen(lines, account, parsed.externalId.value, |lines|)
  }

  function NewLine(statement: nat, account: string, parsed: ParsedLine): BankLine {
    BankLine.BankLine(statement, account, parsed.date, parsed.amount, parsed.description, parsed.externalId, Unmatched)
  }

  /** The lines after the first `n` parsed ones; one already seen on the account is skipped. */
  function Imported(lines: seq<BankLine>, statement: nat, account: string, parsed: seq<ParsedLine>,
                    n: nat): seq<BankLine>
    requires n <= |parsed|
  {
    if n == 0 then lines
    else
      var before := Imported(lines, statement, account, parsed, n - 1);
      if IsDuplicate(before, account, parsed[n - 1]) then before
      else before + [NewLine(statement, account, parsed[n - 1])]
  }

  predicate IsResolved(state: MatchState) { state.ExactMatch? || state.SettlementMatch? || state.ManualMatch? }

  function ResolvedSum(lines: seq<BankLine>, statement: nat, n: nat): int
    requires n <= |lines|
  {
    if n == 0 then 0
    else
      ResolvedSum(lines, statement, n - 1) +
      (if lines[n - 1].statement == statement && IsResolved(lines[n - 1].state) then lines[n - 1].amount else 0)
  }

  function UnresolvedSum(lines: seq<BankLine>, statement: nat, n: nat): int
    requires n <= |lines|
  {
    if n == 0 then 0
    else
      UnresolvedSum(lines, statement, n - 1) +
      (if lines[n - 1].statement == statement && !IsResolved(lines[n - 1].state) then lines[n - 1].amount else 0)
  }

  function Unresolved(lines: seq<BankLine>, statement: nat, n: nat): nat
    requires n <= |lines|
  {
    if n == 0 then 0
    else
      Unresolved(lines, statement, n - 1) +
      (if lines[n - 1].statement == statement && !IsResolved(lines[n - 1].state) then 1 else 0)
  }

  /** All the lines of a statement. */
  function StatementSum(lines: seq<BankLine>, statement: nat, n: nat): int
    requires n <= |lines|
  {
    if n == 0 then 0
    else
      StatementSum(lines, statement, n - 1) +
      (if lines[n - 1].statement == statement then lines[n - 1].amount else 0)
  }

  // ---- Steps ----

  datatype Step =
    | ImportStatement(account: string, from: int, through: int, opening: int, closing: int, parsed: seq<ParsedLine>)
    | MatchStatement(statement: nat, rules: Rules)
    | ConfirmProposal(line: nat, account: string, class': string)
    | CloseStatement(statement: nat, at: int)
    | PostEntry(entry: JournalEntry)
    | ClosePeriod(through: int)

  function WithImport(book: Book, account: string, from: int, through: int, opening: int, closing: int,
                      parsed: seq<ParsedLine>): Book {
    book.(statements := book.statements + [Statement(account, from, through, opening, closing, None)],
          lines := Imported(book.lines, |book.statements|, account, parsed, |parsed|))
  }

  predicate IsOpen(book: Book, statement: nat) {
    statement < |book.statements| && book.statements[statement].closedAt.None?
  }

  ghost function Matching(book: Book, statement: nat, rules: Rules, accepts: JournalEntry -> bool): Progress {
    var order := InOrder(book.lines, statement);
    MatchedUpTo(book, order, rules, accepts, |order|)
  }

  ghost function WithMatches(book: Book, statement: nat, rules: Rules, accepts: JournalEntry -> bool): Book {
    if IsOpen(book, statement) then Matching(book, statement, rules, accepts).book else book
  }

  predicate CanConfirm(book: Book, i: nat) {
    i < |book.lines| && book.lines[i].state.Proposed? && IsOpen(book, book.lines[i].statement)
  }

  function WithConfirmed(book: Book, i: nat, account: string, class': string, accepts: JournalEntry -> bool): Book {
    if CanConfirm(book, i) && Takes(book, ConfirmedEntry(book.lines[i], i, account, class'), accepts) then
      var at := Ref(|book.entries|, 0);
      Marked(book, i, ManualMatch(at), {at}).(entries := book.entries +
          [ConfirmedEntry(book.lines[i], i, account, class')])
    else book
  }

  /** The close: the resolved lines carry the opening balance to the closing one and the rest come to nothing. */
  predicate Closes(book: Book, statement: nat)
    requires statement < |book.statements|
  {
    && book.statements[statement].opening + ResolvedSum(book.lines, statement, |book.lines|) ==
        book.statements[statement].closing
    && UnresolvedSum(book.lines, statement, |book.lines|) == 0
  }

  function WithClosed(book: Book, statement: nat, at: int): Book {
    if IsOpen(book, statement) && Closes(book, statement) then
      book.(statements := book.statements[statement := book.statements[statement].(closedAt := Some(at))])
    else book
  }

  ghost function Next(book: Book, step: Step, accepts: JournalEntry -> bool): Book {
    match step
    case ImportStatement(account, from, through, opening, closing, parsed) =>
      WithImport(book, account, from, through, opening, closing, parsed)
    case MatchStatement(statement, rules) => WithMatches(book, statement, rules, accepts)
    case ConfirmProposal(line, account, class') => WithConfirmed(book, line, account, class', accepts)
    case CloseStatement(statement, at) => WithClosed(book, statement, at)
    case PostEntry(entry) => Posted(book, entry, accepts)
    case ClosePeriod(through) => book.(locked := Some(through))
  }

  ghost function After(book: Book, steps: seq<Step>, accepts: JournalEntry -> bool, n: nat): Book
    requires n <= |steps|
  {
    if n == 0 then book else Next(After(book, steps, accepts, n - 1), steps[n - 1], accepts)
  }
}
