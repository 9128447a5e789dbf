/** The bank steps as the ledger takes them, in place, against what `Bank` says they do. */
module BankLedger {
  import opened Wrappers
  import opened Documents
  import opened Journal
  import opened Bank
  import opened BankSafety
  import opened BankRules
  import Ordering

  class Ledger {
    var entries: Entries
    var cleared: set<Ref>
    var statements: seq<Statement>
    var lines: seq<BankLine>
    var locked: Option<int>

    function Now(): Book
      reads this
    {
      Book(entries, cleared, statements, lines, locked)
    }

    constructor ()
      ensures Now() == Book([], {}, [], [], None) && Sound(Now())
    {
      entries, cleared, statements, lines, locked := [], {}, [], [], None;
    }

    // ---- Looking for a match ----

    method FirstFitIn(k: nat, line: BankLine, rules: Rules) returns (fit: Option<nat>)
      requires k < |entries|
      ensures fit == FirstFit(entries[k], k, cleared, line, rules, |entries[k].lines|)
    {
      fit := None;
      var e := entries[k];
      for j := 0 to |e.lines|
        invariant fit == FirstFit(e, k, cleared, line, rules, j)
      {
        if fit.None? && FitsExactly(e, k, j, cleared, line, rules) { fit := Some(j); }
      }
    }

    /** `uncleared_lines_matching`, the nearest of them. */
    method FindNearest(line: BankLine, rules: Rules) returns (best: Option<Ref>)
      ensures best == Nearest(entries, cleared, line, rules, |entries|)
    {
      best := None;
      for k := 0 to |entries|
        invariant best == Nearest(entries, cleared, line, rules, k)
      {
        var fit := FirstFitIn(k, line, rules);
        if fit.Some? && (best.None? || Nearer(entries[k], entries[best.value.entry], line)) {
          best := Some(Ref(k, fit.value));
        }
      }
    }

    method CreditSum(e: JournalEntry) returns (sum: int, touches: bool)
      ensures sum == Gross(e) && touches == Touches(e.lines, AUTHNET_CLEARING, |e.lines|)
    {
      sum, touches := 0, false;
      for i := 0 to |e.lines|
        invariant sum == CreditsTo(e.lines, AUTHNET_CLEARING, i) && touches == Touches(e.lines, AUTHNET_CLEARING, i)
      {
        if e.lines[i].account == AUTHNET_CLEARING { sum, touches := sum + e.lines[i].credit, true; }
      }
    }

    method FindLeg(e: JournalEntry, line: BankLine) returns (leg: Option<nat>)
      ensures leg == LegOf(e, line)
    {
      leg := None;
      for i := 0 to |e.lines|
        invariant leg == BankLeg(e.lines, line.account, i)
      {
        if leg.None? && e.lines[i].account == line.account && e.lines[i].debit != 0 { leg := Some(i); }
      }
    }

    /** The entry whose clearing credits are the line's amount, and its free leg. */
    method FindSettlement(line: BankLine, rules: Rules) returns (found: Option<Ref>)
      ensures var k := FirstExactSettlement(entries, cleared, line, rules, |entries|);
              found == (if k.None? then None else Some(Ref(k.value, LegOf(entries[k.value], line).value)))
    {
      found := None;
      for k := 0 to |entries|
        invariant var f := FirstExactSettlement(entries, cleared, line, rules, k);
                  found == (if f.None? then None else Some(Ref(f.value, LegOf(entries[f.value], line).value)))
      {
        if found.None? {
          var e := entries[k];
          var gross, touches := CreditSum(e);
          var leg := FindLeg(e, line);
          if IsSettlementKind(e.sourceType) && Near(e, line, rules) && touches && gross == Size(line) {
            if leg.Some? && Ref(k, leg.value) !in cleared { found := Some(Ref(k, leg.value)); }
          }
        }
      }
    }

    /** The entry that falls short of the line by a plausible fee, and its free leg. */
    method FindLessFee(line: BankLine, rules: Rules) returns (found: Option<Ref>)
      ensures var k := FirstFeeSettlement(entries, cleared, line, rules, |entries|);
              found == (if k.None? then None else Some(Ref(k.value, LegOf(entries[k.value], line).value)))
    {
      found := None;
      for k := 0 to |entries|
        invariant var f := FirstFeeSettlement(entries, cleared, line, rules, k);
                  found == (if f.None? then None else Some(Ref(f.value, LegOf(entries[f.value], line).value)))
      {
        if found.None? {
          var e := entries[k];
          var gross, touches := CreditSum(e);
          var leg := FindLeg(e, line);
          if IsSettlementKind(e.sourceType) && Near(e, line, rules) && touches && gross >= Size(line) {
            if IsPlausibleFee(gross, Size(line), rules) && leg.Some? && Ref(k, leg.value) !in cleared {
              found := Some(Ref(k, leg.value));
            }
          }
        }
      }
    }

    // ---- Matching ----

    method Mark(i: nat, state: MatchState, newly: set<Ref>)
      requires i < |lines|
      modifies this`lines, this`cleared
      ensures Now() == Marked(old(Now()), i, state, newly)
    {
      cleared := cleared + newly;
      lines := lines[i := lines[i].(state := state)];
    }

    /** `post_entry`. */
    method Post(e: JournalEntry, accepts: JournalEntry -> bool) returns (taken: bool)
      modifies this`entries
      ensures taken == Takes(old(Now()), e, accepts) && Now() == Posted(old(Now()), e, accepts)
    {
      taken := (locked.None? || e.date > locked.value) && IsBalanced(e) && accepts(e);
      if taken { entries := entries + [e]; }
    }

    /** `try_settlement_match` and `try_settlement_fee_match`. */
    method TrySettlement(i: nat, rules: Rules) returns (d: Decision)
      requires i < |lines| && MoneyIn(lines[i])
      requires Nearest(entries, cleared, lines[i], rules, |entries|).None?
      ensures d == DecisionFor(Now(), i, rules)
    {
      var line := lines[i];
      var whole := FindSettlement(line, rules);
      if whole.Some? { return TakeSettlement(whole.value); }
      if rules.maxFeeRatio <= 0.0 { return Propose; }
      var less := FindLessFee(line, rules);
      if less.None? { return Propose; }
      var gross, touches := CreditSum(entries[less.value.entry]);
      d := TakeLessFee(less.value, gross - line.amount);
    }

    /** The first half of `match_one_line`: which rule. */
    method ChooseRule(i: nat, rules: Rules) returns (d: Decision)
      requires i < |lines|
      ensures d == DecisionFor(Now(), i, rules)
    {
      var exact := FindNearest(lines[i], rules);
      if exact.Some? { return TakeExact(exact.value); }
      if !MoneyIn(lines[i]) { return Propose; }
      d := TrySettlement(i, rules);
    }

    /** The second: what it does. */
    method TakeRule(i: nat, d: Decision, rules: Rules, accepts: JournalEntry -> bool) returns (ok: bool)
      requires i < |lines|
      modifies this`entries, this`lines, this`cleared
      ensures Now() == Applied(old(Now()), i, d, rules, accepts)
      ensures ok <==> !Refused(old(Now()), i, d, rules, accepts)
    {
      var line := lines[i];
      ok := true;
      match d {
        case TakeExact(at) => Mark(i, ExactMatch(at), {at});
        case TakeSettlement(at) => Mark(i, SettlementMatch(at), {at});
        case TakeLessFee(at, fee) =>
          Mark(i, SettlementMatch(at), {at});
          ok := Post(FeeEntry(line, at.entry, fee, rules), accepts);
        case Propose => Mark(i, Proposed, {});
      }
    }

    /** `match_one_line`. */
    method MatchOneLine(i: nat, rules: Rules, accepts: JournalEntry -> bool, report: MatchReport)
        returns (ok: bool, report': MatchReport)
      requires i < |lines| && lines[i].state.Unmatched?
      modifies this`entries, this`lines, this`cleared
      ensures Progress(Now(), report', ok) == Tried(Progress(old(Now()), report, true), i, rules, accepts)
      ensures TurnTaken(old(Now()), i, rules, accepts, report, Progress(Now(), report', ok))
    {
      TurnLeaves(Now(), i, rules, accepts, report);
      var d := ChooseRule(i, rules);
      ok := TakeRule(i, d, rules, accepts);
      report' := if ok then Reported(report, i, d) else report;
    }

    /** `list_bank_lines`. */
    method ListLines(statement: nat) returns (order: seq<nat>)
      ensures order == InOrder(lines, statement)
    {
      EarlierIsTotal(lines);
      var of: set<nat> := {};
      for i := 0 to |lines|
        invariant of == set j: nat | j < i && lines[j].statement == statement
      {
        if lines[i].statement == statement { of := of + {i}; }
      }
      assert of == LinesOf(lines, statement);
      order := Ordering.Sort(of, Earlier(lines));
    }

    /** `match_statement`. */
    method MatchStatement(statement: nat, rules: Rules, accepts: JournalEntry -> bool)
        returns (r: Result<MatchReport, BankError>)
      requires Sound(Now())
      modifies this`entries, this`lines, this`cleared
      ensures Sound(Now()) && Now() == WithMatches(old(Now()), statement, rules, accepts)
      ensures statement >= |statements| ==> r == Failure(NotFound)
      ensures IsClosed(old(Now()), statement) ==> r == Failure(StatementClosed(statement))
      ensures IsOpen(old(Now()), statement) ==>
        var p := Matching(old(Now()), statement, rules, accepts);
        r == if p.ok then Success(p.report) else Failure(EntryRefused)
      ensures r.Success? ==>
        IsMatched(Now(), statement) && Counts(old(Now()), Now(), r.value) && OnlyOn(old(Now()), Now(), statement)
      ensures IsOpen(old(Now()), statement) && IsMatched(old(Now()), statement) ==>
        r == Success(NO_MATCHES) && Now() == old(Now())
    {
      if statement >= |statements| { return Failure(NotFound); }
      if statements[statement].closedAt.Some? { return Failure(StatementClosed(statement)); }
      ghost var was := Now();
      StepKeeps(was, Step.MatchStatement(statement, rules), accepts);
      if IsMatched(was, statement) { SecondMatch(was, statement, rules, accepts); }
      var order := ListLines(statement);
      var ok, report := true, NO_MATCHES;
      for n := 0 to |order|
        invariant Progress(Now(), report, ok) == MatchedUpTo(was, order, rules, accepts, n)
      {
        if ok && lines[order[n]].state.Unmatched? {
          ok, report := MatchOneLine(order[n], rules, accepts, report);
        }
      }
      if !ok { return Failure(EntryRefused); }
      MatchingMatches(was, statement, rules, accepts);
      MatchCounts(was, statement, order, rules, accepts, |order|);
      r := Success(report);
    }

    // ---- Importing, confirming, closing ----

    method AlreadySeen(account: string, externalId: string) returns (seen: bool)
      ensures seen == Seen(lines, account, externalId, |lines|)
    {
      seen := false;
      for i := 0 to |lines|
        invariant seen == Seen(lines, account, externalId, i)
      {
        if lines[i].account == account && lines[i].externalId == Some(externalId) { seen := true; }
      }
    }

    /** `insert_bank_line_if_new` on each parsed line. */
    method InsertLines(statement: nat, account: string, parsed: seq<ParsedLine>) returns (inserted: nat, skipped: nat)
      modifies this`lines
      ensures lines == Imported(old(lines), statement, account, parsed, |parsed|)
      ensures lines == old(lines) + FreshLines(old(lines), statement, account, parsed, |parsed|)
      ensures |lines| == |old(lines)| + inserted && inserted + skipped == |parsed|
    {
      inserted, skipped := 0, 0;
      for k := 0 to |parsed|
        invariant lines == Imported(old(lines), statement, account, parsed, k)
        invariant |lines| == |old(lines)| + inserted && inserted + skipped == k
      {
        var duplicate := false;
        if parsed[k].externalId.Some? { duplicate := AlreadySeen(account, parsed[k].externalId.value); }
        if duplicate {
          skipped := skipped + 1;
        } else {
          lines := lines + [NewLine(statement, account, parsed[k])];
          inserted := inserted + 1;
        }
      }
      ImportAddsFresh(old(lines), statement, account, parsed, |parsed|);
    }

    /** `import_statement`. */
    method ImportStatement(account: string, from: int, through: int, opening: int, closing: int,
                           parsed: seq<ParsedLine>)
        returns (statement: nat, inserted: nat, skipped: nat)
      requires Sound(Now())
      modifies this`statements, this`lines
      ensures Sound(Now()) && Now() == WithImport(old(Now()), account, from, through, opening, closing, parsed)
      ensures statement == |old(statements)| && |lines| == |old(lines)| + inserted && inserted + skipped == |parsed|
      ensures statements == old(statements) + [Statement(account, from, through, opening, closing, None)]
      ensures lines == old(lines) + FreshLines(old(lines), statement, account, parsed, |parsed|)
    {
      ImportKeeps(Now(), account, from, through, opening, closing, parsed);
      statement := |statements|;
      statements := statements + [Statement(account, from, through, opening, closing, None)];
      inserted, skipped := InsertLines(statement, account, parsed);
    }

    /** `confirm_proposal`. An entry of no lines stops the program; here it is an error like the others. */
    method ConfirmProposal(i: nat, account: string, class': string, accepts: JournalEntry -> bool)
        returns (r: Result<nat, BankError>)
      requires Sound(Now())
      modifies this`entries, this`lines, this`cleared
      ensures Sound(Now()) && Now() == WithConfirmed(old(Now()), i, account, class', accepts)
      ensures r.Success? <==>
              CanConfirm(old(Now()), i) && Takes(old(Now()), ConfirmedEntry(old(lines)[i], i, account, class'), accepts)
      ensures r.Failure? ==> Now() == old(Now())
      ensures r.Success? ==>
        && r.value == |old(entries)| && lines[i].amount != 0 && cleared == old(cleared) + {Ref(r.value, 0)}
        && lines == old(lines)[i := old(lines)[i].(state := ManualMatch(Ref(r.value, 0)))]
        && |entries| == r.value + 1 && entries[..r.value] == old(entries)
        && IsConfirmation(entries[r.value], lines[i], i, account, class')
    {
      if i >= |lines| { return Failure(NotFound); }
      if !lines[i].state.Proposed? { return Failure(NotAProposal(i)); }
      if lines[i].statement >= |statements| { return Failure(NotFound); }
      if statements[lines[i].statement].closedAt.Some? { return Failure(StatementClosed(lines[i].statement)); }
      ConfirmKeeps(Now(), i, account, class', accepts);
      var e := ConfirmedEntry(lines[i], i, account, class');
      if e.lines == [] { return Failure(NothingToPost); }
      var at := Ref(|entries|, 0);
      var taken := Post(e, accepts);
      if !taken { return Failure(EntryRefused); }
      Mark(i, ManualMatch(at), {at});
      r := Success(at.entry);
    }

    method SumLines(statement: nat) returns (matched: int, unmatched: int, count: nat)
      ensures matched == ResolvedSum(lines, statement, |lines|) && unmatched == UnresolvedSum(lines, statement, |lines|)
      ensures count == Unresolved(lines, statement, |lines|)
    {
      matched, unmatched, count := 0, 0, 0;
      for i := 0 to |lines|
        invariant matched == ResolvedSum(lines, statement, i) && unmatched == UnresolvedSum(lines, statement, i)
        invariant count == Unresolved(lines, statement, i)
      {
        if lines[i].statement == statement {
          if IsResolved(lines[i].state) {
            matched := matched + lines[i].amount;
          } else {
            unmatched, count := unmatched + lines[i].amount, count + 1;
          }
        }
      }
    }

    /** `close_statement`. Closing a closed statement gives its date back. */
    method CloseStatement(statement: nat, at: int) returns (r: Result<int, BankError>)
      requires Sound(Now())
      modifies this`statements
      ensures Sound(Now()) && Now() == WithClosed(old(Now()), statement, at)
      ensures r.Success? <==> IsClosed(Now(), statement)
      ensures IsOpen(old(Now()), statement) ==>
        var s := old(statements)[statement];
        r.Success? <==>
        s.opening + ResolvedSum(lines, statement, |lines|) == s.closing && UnresolvedSum(lines, statement, |lines|) == 0
      ensures r.Success? && IsOpen(old(Now()), statement) ==>
        statements == old(statements)[statement := old(statements)[statement].(closedAt := Some(at))] && r.value == at
      ensures r.Success? ==>
        var s := statements[statement];
        s.closedAt == Some(r.value) && s.opening + StatementSum(lines, statement, |lines|) == s.closing
      ensures IsOpen(old(Now()), statement) && r.Failure? ==>
        var s := statements[statement];
        && r.error == DoesNotClose(s.closing - s.opening - ResolvedSum(lines, statement, |lines|),
                                   Unresolved(lines, statement, |lines|))
        && !Closes(Now(), statement)
    {
      if statement >= |statements| { return Failure(NotFound); }
      var s := statements[statement];
      if s.closedAt.Some? { return Success(s.closedAt.value); }
      CloseKeeps(Now(), statement, at);
      var matched, unmatched, count := SumLines(statement);
      if s.opening + matched != s.closing || unmatched != 0 {
        return Failure(DoesNotClose(s.closing - (s.opening + matched), count));
      }
      SumsSplit(lines, statement, |lines|);
      statements := statements[statement := s.(closedAt := Some(at))];
      r := Success(at);
    }

    // ---- Runs ----

    method Perform(step: Step, accepts: JournalEntry -> bool)
      requires Sound(Now())
      modifies this
      ensures Sound(Now()) && Now() == Next(old(Now()), step, accepts)
    {
      StepKeeps(Now(), step, accepts);
      match step {
        case ImportStatement(account, from, through, opening, closing, parsed) =>
          var _, _, _ := ImportStatement(account, from, through, opening, closing, parsed);
        case MatchStatement(statement, rules) =>
          var _ := MatchStatement(statement, rules, accepts);
        case ConfirmProposal(line, account, class') =>
          var _ := ConfirmProposal(line, account, class', accepts);
        case CloseStatement(statement, at) =>
          var _ := CloseStatement(statement, at);
        case PostEntry(entry) =>
          var _ := Post(entry, accepts);
        case ClosePeriod(through) => locked := Some(through);
      }
    }

    method Run(steps: seq<Step>, accepts: JournalEntry -> bool)
      requires Sound(Now())
      modifies this
      ensures Now() == After(old(Now()), steps, accepts, |steps|)
      ensures Sound(Now()) && Grows(old(Now()), Now())
    {
      for n := 0 to |steps|
        invariant Sound(Now()) && Now() == After(old(Now()), steps, accepts, n)
      {
        Perform(steps[n], accepts);
      }
      RunKeeps(old(Now()), steps, accepts, |steps|);
    }
  }
}
