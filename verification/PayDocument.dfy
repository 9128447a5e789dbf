/** A pay run's document, told from its lines and the configuration: which line goes to which account, and when there
    is no document. */
module PayDocument {
  import opened Wrappers
  import opened Ordering
  import opened Payroll

  // ---- Where a line goes ----

  /** The employee's own mapping, or else that of the department. */
  predicate Maps(config: Config, line: PayLine, mapping: Mapping) {
    if config.trim(line.employee) in config.employees then config.employees[config.trim(line.employee)] == mapping
    else
      && line.department.Some? && config.trim(line.department.value) in config.departments
      && config.departments[config.trim(line.department.value)] == mapping
  }

  predicate IsMapped(config: Config, line: PayLine) {
    || config.trim(line.employee) in config.employees
    || (line.department.Some? && config.trim(line.department.value) in config.departments)
  }

  /** The account of wages: the mapping's, or else everybody's. */
  predicate IsWages(config: Config, mapping: Mapping, account: string) {
    (mapping.wages == Some(account)) || (mapping.wages == None && config.wages == account)
  }

  /** The account of employer costs: the mapping's, or else everybody's, or else that of the wages. */
  predicate IsEmployer(config: Config, mapping: Mapping, account: string) {
    || mapping.employerTax == Some(account)
    || (mapping.employerTax == None && config.employerTax == Some(account))
    || (mapping.employerTax == None && config.employerTax == None && IsWages(config, mapping, account))
  }

  /** Earnings are debited to wages, employer taxes and deductions to employer costs, in the class of the mapping;
      nothing else is debited. */
  ghost predicate DebitsTo(config: Config, line: PayLine, account: string, class': string) {
    exists mapping :: Maps(config, line, mapping) && mapping.class_ == class' &&
      match line.section
      case Earning => IsWages(config, mapping, account)
      case EmployerTax => IsEmployer(config, mapping, account)
      case EmployerDeduction => IsEmployer(config, mapping, account)
      case _ => false
  }

  /** What is withheld from the employee. */
  predicate Withheld(line: PayLine) { line.section == EmployeeTax || line.section == EmployeeDeduction }

  predicate EmployerCost(line: PayLine) { line.section == EmployerTax || line.section == EmployerDeduction }

  /** What is withheld and what the employer adds is owed, by item. */
  predicate OwesFor(config: Config, line: PayLine, item: string) {
    (Withheld(line) || EmployerCost(line)) && config.trim(line.item) == item
  }

  lemma KeyTells(config: Config, line: PayLine, key: DebitKey)
    ensures KeyOf(config, line) == Some(key) <==> DebitsTo(config, line, key.account, key.class_)
  {
    if KeyOf(config, line) == Some(key) {
      var mapping := config.Resolve(line).value;
      assert Maps(config, line, mapping);
    }
  }

  // ---- What lines come to ----

  /** What the lines that `which` picks come to. */
  ghost function Amounts(lines: seq<PayLine>, which: PayLine -> bool, n: nat): int
    requires n <= |lines|
  {
    if n == 0 then 0 else Amounts(lines, which, n - 1) + (if which(lines[n - 1]) then lines[n - 1].amount else 0)
  }

  ghost predicate Picks(config: Config, m: Measure, which: PayLine -> bool) {
    forall line :: Measured(config, line, m) == if which(line) then line.amount else 0
  }

  lemma {:induction false} SumPicked(config: Config, lines: seq<PayLine>, m: Measure, which: PayLine -> bool, n: nat)
    requires n <= |lines| && Picks(config, m, which)
    ensures SumTo(config, lines, m, n) == Amounts(lines, which, n)
  {
    if n > 0 { SumPicked(config, lines, m, which, n - 1); }
  }

  ghost function To(config: Config, account: string, class': string): PayLine -> bool {
    (line: PayLine) => DebitsTo(config, line, account, class')
  }

  ghost function For(config: Config, item: string): PayLine -> bool {
    (line: PayLine) => OwesFor(config, line, item)
  }

  /** One employee's lines, or everybody's for `None`. */
  predicate IsOf(config: Config, line: PayLine, employee: Option<string>) {
    employee.None? || config.trim(line.employee) == employee.value
  }

  function Earned(config: Config, employee: Option<string>): PayLine -> bool {
    (line: PayLine) => line.section == Earning && IsOf(config, line, employee)
  }

  function Kept(config: Config, employee: Option<string>): PayLine -> bool {
    (line: PayLine) => Withheld(line) && IsOf(config, line, employee)
  }

  function Stated(config: Config, employee: Option<string>): PayLine -> bool {
    (line: PayLine) => line.section == NetPay && IsOf(config, line, employee)
  }

  function Costs(): PayLine -> bool { (line: PayLine) => EmployerCost(line) }

  /** Net pay: what is earned less what is withheld. */
  ghost function NetPayOf(config: Config, lines: seq<PayLine>, employee: Option<string>): int {
    Amounts(lines, Earned(config, employee), |lines|) - Amounts(lines, Kept(config, employee), |lines|)
  }

  lemma {:induction false} NetSplits(config: Config, lines: seq<PayLine>, employee: Option<string>, n: nat)
    requires n <= |lines|
    ensures SumTo(config, lines, if employee.Some? then NetOf(employee.value) else Net, n) ==
            Amounts(lines, Earned(config, employee), n) - Amounts(lines, Kept(config, employee), n)
  {
    if n > 0 { NetSplits(config, lines, employee, n - 1); }
  }

  lemma DebitsPicked(config: Config, lines: seq<PayLine>, key: DebitKey)
    ensures SumOf(config, lines, DebitTo(key)) == Amounts(lines, To(config, key.account, key.class_), |lines|)
  {
    forall line
      ensures Measured(config, line, DebitTo(key)) ==
              if To(config, key.account, key.class_)(line) then line.amount else 0
    {
      KeyTells(config, line, key);
    }
    SumPicked(config, lines, DebitTo(key), To(config, key.account, key.class_), |lines|);
  }

  lemma OwedPicked(config: Config, lines: seq<PayLine>, item: string)
    ensures SumOf(config, lines, OwedFor(item)) == Amounts(lines, For(config, item), |lines|)
  {
    SumPicked(config, lines, OwedFor(item), For(config, item), |lines|);
  }

  // ---- The document ----

  /** A debit: all that goes to the account in the class, naming the items. */
  ghost predicate IsDebit(config: Config, lines: seq<PayLine>, l: JournalLine) {
    && l.side == Debit && l.class_.Some?
    && l.amount == Amounts(lines, To(config, l.account, l.class_.value), |lines|)
    && (forall item :: item in l.items <==>
          exists k :: 0 <= k < |lines| && DebitsTo(config, lines[k], l.account, l.class_.value) &&
            config.trim(lines[k].item) == item)
    && forall i, j :: 0 <= i < j < |l.items| ==> config.before(l.items[i], l.items[j])
  }

  /** A liability: all that is owed for one item. */
  ghost predicate IsLiability(config: Config, lines: seq<PayLine>, l: JournalLine) {
    && l.side == Credit && l.account == config.liabilities && l.class_ == None && |l.items| == 1
    && l.amount == Amounts(lines, For(config, l.items[0]), |lines|)
  }

  /** One debit for every account and class with a line, in order. */
  ghost predicate AreDebits(config: Config, lines: seq<PayLine>, debits: seq<JournalLine>) {
    && (forall i :: 0 <= i < |debits| ==> IsDebit(config, lines, debits[i]))
    && (forall i, j :: 0 <= i < j < |debits| ==> DebitBefore(config, debits[i], debits[j]))
    && (forall k, account, class' :: 0 <= k < |lines| && DebitsTo(config, lines[k], account, class') ==>
          HasDebit(debits, account, class'))
  }

  predicate HasDebit(debits: seq<JournalLine>, account: string, class': string) {
    exists i :: 0 <= i < |debits| && debits[i].account == account && debits[i].class_ == Some(class')
  }

  /** One liability for every item that is owed for, in order. */
  ghost predicate AreLiabilities(config: Config, lines: seq<PayLine>, owed: seq<JournalLine>) {
    && (forall i :: 0 <= i < |owed| ==> IsLiability(config, lines, owed[i]))
    && (forall i, j :: 0 <= i < j < |owed| ==> config.before(owed[i].items[0], owed[j].items[0]))
    && (forall k, item :: 0 <= k < |lines| && OwesFor(config, lines[k], item) ==> HasItem(owed, item))
  }

  predicate HasItem(owed: seq<JournalLine>, item: string) {
    exists i :: 0 <= i < |owed| && owed[i].items == [item]
  }

  /** First the debits, then the liabilities, last the net pay out of the bank. */
  ghost predicate IsDocument(doc: JournalDoc, run: PayRun, config: Config) {
    && doc.runId == run.runId && doc.payDate == run.payDate
    && exists debits, owed ::
         && AreDebits(config, run.lines, debits) && AreLiabilities(config, run.lines, owed)
         && doc.lines == debits + owed +
                         [JournalLine(config.bank, None, Credit, NetPayOf(config, run.lines, None), [])]
  }

  predicate DebitBefore(config: Config, a: JournalLine, b: JournalLine) {
    && a.class_.Some? && b.class_.Some?
    && (config.before(a.account, b.account) ||
        (a.account == b.account && config.before(a.class_.value, b.class_.value)))
  }

  lemma DebitTells(config: Config, lines: seq<PayLine>, key: DebitKey)
    requires TotalOrder(config.before)
    ensures IsDebit(config, lines, DebitLine(config, lines, key))
  {
    DebitsPicked(config, lines, key);
    var l := DebitLine(config, lines, key);
    forall item
      ensures item in l.items <==>
              exists k :: 0 <= k < |lines| && DebitsTo(config, lines[k], l.account, l.class_.value) &&
                config.trim(lines[k].item) == item
    {
      if item in ItemsFor(config, lines, key) {
        var line :| line in lines && KeyOf(config, line) == Some(key) && config.trim(line.item) == item;
        var k :| 0 <= k < |lines| && lines[k] == line;
        KeyTells(config, line, key);
      }
      if k :| 0 <= k < |lines| && DebitsTo(config, lines[k], l.account, l.class_.value) &&
              config.trim(lines[k].item) == item {
        KeyTells(config, lines[k], key);
        assert lines[k] in lines;
      }
    }
  }

  lemma DebitsTell(config: Config, lines: seq<PayLine>, keys: seq<DebitKey>)
    requires TotalOrder(config.before)
    requires forall k :: k in keys <==> k in DebitKeys(config, lines)
    requires forall i, j :: 0 <= i < j < |keys| ==> KeyBefore(config.before, keys[i], keys[j])
    ensures AreDebits(config, lines, DebitLines(config, lines, keys))
  {
    var debits := DebitLines(config, lines, keys);
    forall i | 0 <= i < |debits|
      ensures IsDebit(config, lines, debits[i])
    {
      DebitTells(config, lines, keys[i]);
    }
    forall k, account, class' | 0 <= k < |lines| && DebitsTo(config, lines[k], account, class')
      ensures HasDebit(debits, account, class')
    {
      var key := DebitKey(account, class');
      KeyTells(config, lines[k], key);
      assert lines[k] in lines && key in DebitKeys(config, lines);
      var i :| 0 <= i < |keys| && keys[i] == key;
      assert debits[i].account == account && debits[i].class_ == Some(class');
    }
  }

  lemma OwedTell(config: Config, lines: seq<PayLine>, items: seq<string>)
    requires forall k :: k in items <==> k in OwedItems(config, lines)
    requires forall i, j :: 0 <= i < j < |items| ==> config.before(items[i], items[j])
    ensures AreLiabilities(config, lines, OwedLines(config, lines, items))
  {
    var owed := OwedLines(config, lines, items);
    forall i | 0 <= i < |owed|
      ensures IsLiability(config, lines, owed[i])
    {
      OwedPicked(config, lines, items[i]);
    }
    forall k, item | 0 <= k < |lines| && OwesFor(config, lines[k], item)
      ensures HasItem(owed, item)
    {
      assert lines[k] in lines && item in OwedItems(config, lines);
      var i :| 0 <= i < |items| && items[i] == item;
      assert owed[i].items == [item];
    }
  }

  /** The document is what the lines say. */
  lemma DocumentTells(run: PayRun, config: Config)
    requires TotalOrder(config.before)
    ensures IsDocument(DocumentOf(run, config), run, config)
  {
    KeysOrdered(config.before);
    var keys, items := Sorted(DebitKeys(config, run.lines), KeyOrder(config.before)),
        Sorted(OwedItems(config, run.lines), config.before);
    DebitsTell(config, run.lines, keys);
    OwedTell(config, run.lines, items);
    NetSplits(config, run.lines, None, |run.lines|);
  }

  // ---- The outcome ----

  /** The employees of whom a net pay is stated that is not what was earned less what was withheld. */
  ghost predicate IsOff(config: Config, lines: seq<PayLine>, employee: string) {
    && (exists k :: 0 <= k < |lines| && lines[k].section == NetPay && config.trim(lines[k].employee) == employee)
    && Amounts(lines, Stated(config, Some(employee)), |lines|) != NetPayOf(config, lines, Some(employee))
  }

  /** The totals of a run. */
  ghost predicate AreTotals(config: Config, lines: seq<PayLine>, t: Totals) {
    && t.gross == Amounts(lines, Earned(config, None), |lines|)
    && t.employerCosts == Amounts(lines, Costs(), |lines|)
    && t.liabilities == Amounts(lines, Kept(config, None), |lines|) + t.employerCosts
    && t.netPay == t.gross - Amounts(lines, Kept(config, None), |lines|)
    && t.noncash == Amounts(lines, (line: PayLine) => line.section == NoncashEarning, |lines|)
  }

  /** Nothing is posted for. */
  ghost predicate IsEmpty(config: Config, lines: seq<PayLine>) {
    Amounts(lines, Earned(config, None), |lines|) == 0 && Amounts(lines, Costs(), |lines|) == 0
  }

  predicate AnyUnmapped(config: Config, lines: seq<PayLine>) {
    exists k :: 0 <= k < |lines| && lines[k].section != NetPay && !IsMapped(config, lines[k])
  }

  ghost predicate AnyOff(config: Config, lines: seq<PayLine>) { exists e :: IsOff(config, lines, e) }

  /** The first such employee, by name. */
  ghost predicate IsFirstOff(config: Config, lines: seq<PayLine>, e: string) {
    IsOff(config, lines, e) && forall other :: IsOff(config, lines, other) ==> other == e || config.before(e, other)
  }

  /** The refusal of a net pay says both amounts. */
  ghost predicate RefusesOff(r: Result<(JournalDoc, Totals), PayrollError>, config: Config, lines: seq<PayLine>) {
    exists e :: IsFirstOff(config, lines, e) &&
      r == Failure(NetPayMismatch(Amounts(lines, Stated(config, Some(e)), |lines|),
                                  NetPayOf(config, lines, Some(e))))
  }

  /** The refusal of what is not mapped names all of it. */
  ghost predicate RefusesUnmapped(r: Result<(JournalDoc, Totals), PayrollError>, config: Config, lines: seq<PayLine>) {
    r.Failure? && r.error.NotMapped? && forall key :: key in r.error.keys <==> IsUnmapped(config, lines, key)
  }

  /** The first refusal that applies, or the document and its totals. */
  ghost predicate IsOutcome(r: Result<(JournalDoc, Totals), PayrollError>, run: PayRun, config: Config) {
    var lines := run.lines;
    if config.trim(run.runId) == "" then r == Failure(EmptyRunId)
    else if lines == [] then r == Failure(NoLines)
    else if AnyUnmapped(config, lines) then RefusesUnmapped(r, config, lines)
    else if AnyOff(config, lines) then RefusesOff(r, config, lines)
    else if NetPayOf(config, lines, None) < 0 then r == Failure(NegativeNet)
    else if IsEmpty(config, lines) then r == Failure(NothingToPost)
    else r.Success? && IsDocument(r.value.0, run, config) && AreTotals(config, lines, r.value.1)
  }

  /** A name and department of a line that maps to nothing. */
  predicate IsUnmapped(config: Config, lines: seq<PayLine>, key: (string, Option<string>)) {
    exists k :: 0 <= k < |lines| && lines[k].section != NetPay && !IsMapped(config, lines[k]) &&
      lines[k].employee == key.0 && lines[k].department == key.1
  }

  lemma UnmappedTells(config: Config, lines: seq<PayLine>)
    ensures forall key :: key in Unmapped(config, lines) <==> IsUnmapped(config, lines, key)
    ensures Unmapped(config, lines) != {} <==> AnyUnmapped(config, lines)
  {
    forall key: (string, Option<string>)
      ensures key in Unmapped(config, lines) <==> IsUnmapped(config, lines, key)
    {
      if key in Unmapped(config, lines) {
        var line :| line in lines && !line.section.NetPay? && config.Resolve(line).None? &&
                    (line.employee, line.department) == key;
        var k :| 0 <= k < |lines| && lines[k] == line;
        assert !IsMapped(config, lines[k]);
      }
      if IsUnmapped(config, lines, key) {
        var k :| 0 <= k < |lines| && lines[k].section != NetPay && !IsMapped(config, lines[k]) &&
                 lines[k].employee == key.0 && lines[k].department == key.1;
        assert lines[k] in lines;
      }
    }
    if Unmapped(config, lines) != {} {
      var key :| key in Unmapped(config, lines);
      assert IsUnmapped(config, lines, key);
    }
    if k :| 0 <= k < |lines| && lines[k].section != NetPay && !IsMapped(config, lines[k]) {
      assert IsUnmapped(config, lines, (lines[k].employee, lines[k].department));
    }
  }

  lemma StatedPicked(config: Config, lines: seq<PayLine>, e: string)
    ensures SumOf(config, lines, StatedFor(e)) == Amounts(lines, Stated(config, Some(e)), |lines|)
    ensures SumOf(config, lines, NetOf(e)) == NetPayOf(config, lines, Some(e))
  {
    SumPicked(config, lines, StatedFor(e), Stated(config, Some(e)), |lines|);
    NetSplits(config, lines, Some(e), |lines|);
  }

  lemma StatingTells(config: Config, lines: seq<PayLine>, e: string)
    ensures e in Stating(config, lines) <==>
            exists k :: 0 <= k < |lines| && lines[k].section == NetPay && config.trim(lines[k].employee) == e
  {
    if e in Stating(config, lines) {
      var line :| line in lines && line.section.NetPay? && config.trim(line.employee) == e;
      var k :| 0 <= k < |lines| && lines[k] == line;
    }
    if k :| 0 <= k < |lines| && lines[k].section == NetPay && config.trim(lines[k].employee) == e {
      assert lines[k] in lines;
    }
  }

  lemma OffTells(config: Config, lines: seq<PayLine>)
    ensures forall e :: e in Mismatched(config, lines) <==> IsOff(config, lines, e)
  {
    forall e
      ensures e in Mismatched(config, lines) <==> IsOff(config, lines, e)
    {
      StatedPicked(config, lines, e);
      StatingTells(config, lines, e);
    }
  }

  lemma {:induction false} OwedSplits(config: Config, lines: seq<PayLine>, n: nat)
    requires n <= |lines|
    ensures SumTo(config, lines, Owed, n) == Amounts(lines, Kept(config, None), n) + Amounts(lines, Costs(), n)
  {
    if n > 0 { OwedSplits(config, lines, n - 1); }
  }

  lemma TotalsTell(config: Config, lines: seq<PayLine>)
    ensures AreTotals(config, lines, TotalsOf(config, lines))
  {
    SumPicked(config, lines, Gross, Earned(config, None), |lines|);
    SumPicked(config, lines, EmployerCosts, Costs(), |lines|);
    SumPicked(config, lines, Noncash, (line: PayLine) => line.section == NoncashEarning, |lines|);
    OwedSplits(config, lines, |lines|);
    NetSplits(config, lines, None, |lines|);
  }

  lemma MismatchTells(config: Config, lines: seq<PayLine>)
    requires TotalOrder(config.before) && Mismatched(config, lines) != {}
    ensures var e := Least(Mismatched(config, lines), config.before);
            var error := NetPayMismatch(SumOf(config, lines, StatedFor(e)), SumOf(config, lines, NetOf(e)));
            AnyOff(config, lines) && RefusesOff(Failure(error), config, lines)
  {
    var e := Least(Mismatched(config, lines), config.before);
    OffTells(config, lines);
    StatedPicked(config, lines, e);
    assert IsFirstOff(config, lines, e);
  }

  lemma NoMismatchTells(config: Config, lines: seq<PayLine>)
    requires Mismatched(config, lines) == {}
    ensures !AnyOff(config, lines)
  {
    OffTells(config, lines);
    forall e
      ensures !IsOff(config, lines, e)
    {
      assert e !in Mismatched(config, lines);
    }
  }

  lemma SumsTell(config: Config, lines: seq<PayLine>)
    ensures SumOf(config, lines, Net) == NetPayOf(config, lines, None)
    ensures SumOf(config, lines, Gross) == 0 && SumOf(config, lines, EmployerCosts) == 0 <==> IsEmpty(config, lines)
  {
    NetSplits(config, lines, None, |lines|);
    SumPicked(config, lines, Gross, Earned(config, None), |lines|);
    SumPicked(config, lines, EmployerCosts, Costs(), |lines|);
  }

  /** What comes of a run, told from its lines: the first refusal that applies, or the document. */
  lemma OutcomeTells(run: PayRun, config: Config)
    requires TotalOrder(config.before)
    ensures IsOutcome(Outcome(run, config), run, config)
  {
    var lines := run.lines;
    UnmappedTells(config, lines);
    SumsTell(config, lines);
    if Mismatched(config, lines) != {} {
      MismatchTells(config, lines);
    } else {
      NoMismatchTells(config, lines);
      DocumentTells(run, config);
      TotalsTell(config, lines);
    }
  }
}
