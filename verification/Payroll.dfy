/** The journal of a pay run: wages and employer costs by class against what is owed and paid. */
module Payroll {
  import opened Wrappers
  import opened Ordering

  datatype Section = Earning | NoncashEarning | EmployeeTax | EmployeeDeduction | EmployerTax | EmployerDeduction
      | NetPay

  datatype PayLine = PayLine(employee: string, department: Option<string>, section: Section, item: string, amount: int)

  datatype PayRun = PayRun(runId: string, payDate: int, lines: seq<PayLine>)

  /** Where one employee's (or department's) pay lands. */
  datatype Mapping = Mapping(class_: string, wages: Option<string>, employerTax: Option<string>)

  /** `trim` and `before` are the library's: spaces cut off a text, and the order of texts. */
  datatype Config = Config(
    bank: string, liabilities: string, wages: string, employerTax: Option<string>,
    employees: map<string, Mapping>, departments: map<string, Mapping>,
    trim: string -> string, before: (string, string) -> bool)
  {
    /** The employee's mapping, or the department's (`resolve`). */
    function Resolve(line: PayLine): Option<Mapping> {
      if trim(line.employee) in employees then Some(employees[trim(line.employee)])
      else if line.department.Some? && trim(line.department.value) in departments then
        Some(departments[trim(line.department.value)])
      else None
    }
  }

  datatype DebitKey = DebitKey(account: string, class_: string)

  predicate KeyBefore(before: (string, string) -> bool, a: DebitKey, b: DebitKey) {
    before(a.account, b.account) || (a.account == b.account && before(a.class_, b.class_))
  }

  function KeyOrder(before: (string, string) -> bool): (DebitKey, DebitKey) -> bool {
    (a: DebitKey, b: DebitKey) => KeyBefore(before, a, b)
  }

  lemma KeysOrdered(before: (string, string) -> bool)
    requires TotalOrder(before)
    ensures TotalOrder(KeyOrder(before))
  {
    var order := KeyOrder(before);
    forall a: DebitKey ensures !order(a, a) {}
    forall a: DebitKey, b: DebitKey ensures a == b || order(a, b) || order(b, a) {}
    forall a: DebitKey, b: DebitKey, c: DebitKey | order(a, b) && order(b, c) ensures order(a, c) {
      assert KeyBefore(before, a, b) && KeyBefore(before, b, c);
    }
  }

  predicate IsEmployerCost(s: Section) { s.EmployerTax? || s.EmployerDeduction? }

  predicate IsWithheld(s: Section) { s.EmployeeTax? || s.EmployeeDeduction? }

  /** The account and class a line debits, if it debits any. */
  function KeyOf(config: Config, line: PayLine): Option<DebitKey> {
    match config.Resolve(line)
    case None => None
    case Some(mapping) =>
      var wages := if mapping.wages.Some? then mapping.wages.value else config.wages;
      var employer :=
        if mapping.employerTax.Some? then mapping.employerTax.value
        else if config.employerTax.Some? then config.employerTax.value
        else wages;
      if line.section.Earning? then Some(DebitKey(wages, mapping.class_))
      else if IsEmployerCost(line.section) then Some(DebitKey(employer, mapping.class_))
      else None
  }

  /** The liability a line adds to, by item. */
  function OwedOf(config: Config, line: PayLine): Option<string> {
    if IsWithheld(line.section) || IsEmployerCost(line.section) then Some(config.trim(line.item)) else None
  }

  // ---- Measures of a run ----

  datatype Measure =
    | DebitTo(key: DebitKey) | Debits | DebitsInClass(class_: string)
    | OwedFor(item: string) | Owed
    | NetOf(employee: string) | Net
    | StatedFor(employee: string)
    | Gross | EmployerCosts | Noncash | Nothing

  /** What a line adds to an employee's computed net pay. */
  function NetPart(line: PayLine): int {
    if line.section.Earning? then line.amount else if IsWithheld(line.section) then -line.amount else 0
  }

  function Measured(config: Config, line: PayLine, m: Measure): int {
    match m
    case DebitTo(key) => if KeyOf(config, line) == Some(key) then line.amount else 0
    case Debits => if KeyOf(config, line).Some? then line.amount else 0
    case DebitsInClass(c) =>
      if KeyOf(config, line).Some? && KeyOf(config, line).value.class_ == c then line.amount else 0
    case OwedFor(item) => if OwedOf(config, line) == Some(item) then line.amount else 0
    case Owed => if OwedOf(config, line).Some? then line.amount else 0
    case NetOf(e) => if config.trim(line.employee) == e then NetPart(line) else 0
    case Net => NetPart(line)
    case StatedFor(e) => if line.section.NetPay? && config.trim(line.employee) == e then line.amount else 0
    case Gross => if line.section.Earning? then line.amount else 0
    case EmployerCosts => if IsEmployerCost(line.section) then line.amount else 0
    case Noncash => if line.section.NoncashEarning? then line.amount else 0
    case Nothing => 0
  }

  function SumTo(config: Config, lines: seq<PayLine>, m: Measure, n: nat): int
    requires n <= |lines|
  {
    if n == 0 then 0 else SumTo(config, lines, m, n - 1) + Measured(config, lines[n - 1], m)
  }

  function SumOf(config: Config, lines: seq<PayLine>, m: Measure): int { SumTo(config, lines, m, |lines|) }

  // ---- The keys a run uses ----

  function Unmapped(config: Config, lines: seq<PayLine>): set<(string, Option<string>)> {
    set line | line in lines && !line.section.NetPay? && config.Resolve(line).None? :: (line.employee, line.department)
  }

  function DebitKeys(config: Config, lines: seq<PayLine>): set<DebitKey> {
    set line | line in lines && KeyOf(config, line).Some? :: KeyOf(config, line).value
  }

  function ItemsFor(config: Config, lines: seq<PayLine>, key: DebitKey): set<string> {
    set line | line in lines && KeyOf(config, line) == Some(key) :: config.trim(line.item)
  }

  function OwedItems(config: Config, lines: seq<PayLine>): set<string> {
    set line | line in lines && OwedOf(config, line).Some? :: OwedOf(config, line).value
  }

  function Employees(config: Config, lines: seq<PayLine>): set<string> {
    set line | line in lines :: config.trim(line.employee)
  }

  function Stating(config: Config, lines: seq<PayLine>): set<string> {
    set line | line in lines && line.section.NetPay? :: config.trim(line.employee)
  }

  // ---- The document ----

  datatype Side = Debit | Credit

  /** `items` are what the description lists. */
  datatype JournalLine = JournalLine(
      account: string, class_: Option<string>, side: Side, amount: int, items: seq<string>)

  datatype JournalDoc = JournalDoc(runId: string, payDate: int, lines: seq<JournalLine>)

  datatype Totals = Totals(gross: int, employerCosts: int, liabilities: int, netPay: int, noncash: int)

  datatype PayrollError =
    | EmptyRunId | NoLines
    | NotMapped(keys: set<(string, Option<string>)>)
    | NetPayMismatch(stated: int, computed: int)
    | NegativeNet | NothingToPost

  /** The employees whose stated net pay is not what was computed. */
  ghost function Mismatched(config: Config, lines: seq<PayLine>): set<string> {
    set e | e in Stating(config, lines) && SumOf(config, lines, StatedFor(e)) != SumOf(config, lines, NetOf(e))
  }

  ghost function DebitLine(config: Config, lines: seq<PayLine>, key: DebitKey): JournalLine
    requires TotalOrder(config.before)
  {
    JournalLine(key.account, Some(key.class_), Debit, SumOf(config, lines, DebitTo(key)),
      Sorted(ItemsFor(config, lines, key), config.before))
  }

  function OwedLine(config: Config, lines: seq<PayLine>, item: string): JournalLine {
    JournalLine(config.liabilities, None, Credit, SumOf(config, lines, OwedFor(item)), [item])
  }

  ghost function DebitLines(config: Config, lines: seq<PayLine>, keys: seq<DebitKey>): (s: seq<JournalLine>)
    requires TotalOrder(config.before)
    ensures |s| == |keys|
  {
    seq(|keys|, i requires 0 <= i < |keys| => DebitLine(config, lines, keys[i]))
  }

  function OwedLines(config: Config, lines: seq<PayLine>, items: seq<string>): (s: seq<JournalLine>)
    ensures |s| == |items|
  {
    seq(|items|, i requires 0 <= i < |items| => OwedLine(config, lines, items[i]))
  }

  ghost function TotalsOf(config: Config, lines: seq<PayLine>): Totals {
    Totals(SumOf(config, lines, Gross), SumOf(config, lines, EmployerCosts), SumOf(config, lines, Owed),
        SumOf(config, lines, Net),
      SumOf(config, lines, Noncash))
  }

  /** Debits by account and class, liabilities by item, and the net pay out of the bank. */
  ghost function DocumentOf(run: PayRun, config: Config): JournalDoc
    requires TotalOrder(config.before)
  {
    KeysOrdered(config.before);
    JournalDoc(run.runId, run.payDate,
      LinesOf(config, run.lines, Sorted(DebitKeys(config, run.lines), KeyOrder(config.before)),
        Sorted(OwedItems(config, run.lines), config.before)))
  }

  ghost function LinesOf(config: Config, lines: seq<PayLine>, keys: seq<DebitKey>, items: seq<string>): seq<JournalLine>
    requires TotalOrder(config.before)
  {
    DebitLines(config, lines, keys) + OwedLines(config, lines, items) +
    [JournalLine(config.bank, None, Credit, SumOf(config, lines, Net), [])]
  }

  /** The keys a document lists, each once. */
  ghost predicate Lists(config: Config, lines: seq<PayLine>, keys: seq<DebitKey>, items: seq<string>) {
    && (forall k :: k in keys <==> k in DebitKeys(config, lines))
    && (forall i, j :: 0 <= i < j < |keys| ==> keys[i] != keys[j])
    && (forall k :: k in items <==> k in OwedItems(config, lines))
    && (forall i, j :: 0 <= i < j < |items| ==> items[i] != items[j])
  }

  ghost function Outcome(run: PayRun, config: Config): Result<(JournalDoc, Totals), PayrollError>
    requires TotalOrder(config.before)
  {
    var lines := run.lines;
    if config.trim(run.runId) == "" then Failure(EmptyRunId)
    else if lines == [] then Failure(NoLines)
    else if Unmapped(config, lines) != {} then Failure(NotMapped(Unmapped(config, lines)))
    else if Mismatched(config, lines) != {} then
      var e := Least(Mismatched(config, lines), config.before);
      Failure(NetPayMismatch(SumOf(config, lines, StatedFor(e)), SumOf(config, lines, NetOf(e))))
    else if SumOf(config, lines, Net) < 0 then Failure(NegativeNet)
    else if SumOf(config, lines, Gross) == 0 && SumOf(config, lines, EmployerCosts) == 0 then Failure(NothingToPost)
    else Success((DocumentOf(run, config), TotalsOf(config, lines)))
  }

  // ---- Order does not matter ----

  lemma {:induction false} SumTakesOut(config: Config, s: seq<PayLine>, m: Measure, i: nat, n: nat)
    requires i < n <= |s|
    ensures SumTo(config, s, m, n) == Measured(config, s[i], m) + SumTo(config, s[..i] + s[i + 1..], m, n - 1)
  {
    if i < n - 1 {
      SumTakesOut(config, s, m, i, n - 1);
      assert (s[..i] + s[i + 1..])[n - 2] == s[n - 1];
    } else {
      SumAgrees(config, s, s[..i] + s[i + 1..], m, n - 1);
    }
  }

  lemma {:induction false} SumAgrees(config: Config, s: seq<PayLine>, t: seq<PayLine>, m: Measure, n: nat)
    requires n <= |s| && n <= |t| && forall i :: 0 <= i < n ==> s[i] == t[i]
    ensures SumTo(config, s, m, n) == SumTo(config, t, m, n)
  {
    if n > 0 { SumAgrees(config, s, t, m, n - 1); }
  }

  function Without(s: seq<PayLine>, i: nat): (rest: seq<PayLine>)
    requires i < |s|
    ensures |rest| == |s| - 1
  {
    s[..i] + s[i + 1..]
  }

  lemma TakenOut(s: seq<PayLine>, i: nat)
    requires i < |s|
    ensures multiset(Without(s, i)) == multiset(s) - multiset{s[i]}
  {
    assert s == s[..i] + [s[i]] + s[i + 1..];
  }

  lemma SumWithout(config: Config, s: seq<PayLine>, m: Measure, i: nat)
    requires i < |s|
    ensures SumOf(config, s, m) == Measured(config, s[i], m) + SumOf(config, Without(s, i), m)
  {
    SumTakesOut(config, s, m, i, |s|);
  }

  /** A measure depends on which lines there are, not on their order. */
  lemma {:induction false} SumPermutes(config: Config, s: seq<PayLine>, t: seq<PayLine>, m: Measure)
    requires multiset(s) == multiset(t)
    ensures SumOf(config, s, m) == SumOf(config, t, m)
    decreases |s|
  {
    SameLength(s, t);
    if s != [] {
      assert s[0] in s;
      var i :| 0 <= i < |t| && t[i] == s[0];
      TakenOut(s, 0);
      TakenOut(t, i);
      SumPermutes(config, Without(s, 0), Without(t, i), m);
      SumWithout(config, s, m, 0);
      SumWithout(config, t, m, i);
    }
  }

  lemma SameLength(s: seq<PayLine>, t: seq<PayLine>)
    requires multiset(s) == multiset(t)
    ensures |s| == |t| && forall line :: line in s <==> line in t
  {
    assert |multiset(s)| == |s| && |multiset(t)| == |t|;
    forall line ensures line in s <==> line in t { assert line in multiset(s) <==> line in multiset(t); }
  }

  lemma SameKeys(config: Config, s: seq<PayLine>, t: seq<PayLine>)
    requires multiset(s) == multiset(t)
    ensures Unmapped(config, s) == Unmapped(config, t) && DebitKeys(config, s) == DebitKeys(config, t)
    ensures OwedItems(config, s) == OwedItems(config, t) && Stating(config, s) == Stating(config, t)
    ensures forall key :: ItemsFor(config, s, key) == ItemsFor(config, t, key)
  {
    SameLength(s, t);
  }

  lemma SameMismatched(config: Config, s: seq<PayLine>, t: seq<PayLine>)
    requires multiset(s) == multiset(t)
    ensures Mismatched(config, s) == Mismatched(config, t)
  {
    SameKeys(config, s, t);
    forall e
      ensures SumOf(config, s, StatedFor(e)) == SumOf(config, t, StatedFor(e)) &&
          SumOf(config, s, NetOf(e)) == SumOf(config, t, NetOf(e))
    {
      SumPermutes(config, s, t, StatedFor(e));
      SumPermutes(config, s, t, NetOf(e));
    }
  }

  lemma SameDocument(run: PayRun, lines: seq<PayLine>, config: Config)
    requires TotalOrder(config.before) && multiset(run.lines) == multiset(lines)
    ensures DocumentOf(run, config) == DocumentOf(run.(lines := lines), config)
    ensures TotalsOf(config, run.lines) == TotalsOf(config, lines)
  {
    KeysOrdered(config.before);
    var s := run.lines;
    SameKeys(config, s, lines);
    var keys, items := Sorted(DebitKeys(config, s), KeyOrder(config.before)),
        Sorted(OwedItems(config, s), config.before);
    forall i | 0 <= i < |keys| ensures DebitLine(config, s, keys[i]) == DebitLine(config, lines, keys[i]) {
      SumPermutes(config, s, lines, DebitTo(keys[i]));
    }
    assert DebitLines(config, s, keys) == DebitLines(config, lines, keys);
    forall i | 0 <= i < |items| ensures OwedLine(config, s, items[i]) == OwedLine(config, lines, items[i]) {
      SumPermutes(config, s, lines, OwedFor(items[i]));
    }
    assert OwedLines(config, s, items) == OwedLines(config, lines, items);
    SumPermutes(config, s, lines, Net);
    assert LinesOf(config, s, keys, items) == LinesOf(config, lines, keys, items);
    SumPermutes(config, s, lines, Gross);
    SumPermutes(config, s, lines, EmployerCosts);
    SumPermutes(config, s, lines, Owed);
    SumPermutes(config, s, lines, Noncash);
  }

  /** The document, or the refusal, is the same in whatever order the run's lines come. */
  lemma OrderIrrelevant(run: PayRun, lines: seq<PayLine>, config: Config)
    requires TotalOrder(config.before) && multiset(run.lines) == multiset(lines)
    ensures Outcome(run, config) == Outcome(run.(lines := lines), config)
  {
    SameLength(run.lines, lines);
    SameKeys(config, run.lines, lines);
    SameMismatched(config, run.lines, lines);
    SameDocument(run, lines, config);
    if Mismatched(config, lines) != {} {
      var e := Least(Mismatched(config, lines), config.before);
      SumPermutes(config, run.lines, lines, StatedFor(e));
      SumPermutes(config, run.lines, lines, NetOf(e));
    }
  }

  // ---- The entry balances ----

  function AddUp(config: Config, line: PayLine, ms: seq<Measure>, k: nat): int
    requires k <= |ms|
  {
    if k == 0 then 0 else AddUp(config, line, ms, k - 1) + Measured(config, line, ms[k - 1])
  }

  function SumsUp(config: Config, lines: seq<PayLine>, ms: seq<Measure>, k: nat, n: nat): int
    requires k <= |ms| && n <= |lines|
  {
    if k == 0 then 0 else SumsUp(config, lines, ms, k - 1, n) + SumTo(config, lines, ms[k - 1], n)
  }

  lemma {:induction false} SumsNext(config: Config, lines: seq<PayLine>, ms: seq<Measure>, k: nat, n: nat)
    requires k <= |ms| && 0 < n <= |lines|
    ensures SumsUp(config, lines, ms, k, n) == SumsUp(config, lines, ms, k, n - 1) + AddUp(config, lines[n - 1], ms, k)
  {
    if k > 0 { SumsNext(config, lines, ms, k - 1, n); }
  }

  lemma {:induction false} SumsNone(config: Config, lines: seq<PayLine>, ms: seq<Measure>, k: nat)
    requires k <= |ms|
    ensures SumsUp(config, lines, ms, k, 0) == 0
  {
    if k > 0 { SumsNone(config, lines, ms, k - 1); }
  }

  /** Measures that split another line by line split its sum. */
  lemma {:induction false} SumsSplit(config: Config, lines: seq<PayLine>, ms: seq<Measure>, m: Measure, n: nat)
    requires n <= |lines| && forall line :: line in lines ==> AddUp(config, line, ms, |ms|) == Measured(config, line, m)
    ensures SumsUp(config, lines, ms, |ms|, n) == SumTo(config, lines, m, n)
  {
    if n == 0 {
      SumsNone(config, lines, ms, |ms|);
    } else {
      SumsSplit(config, lines, ms, m, n - 1);
      SumsNext(config, lines, ms, |ms|, n);
    }
  }

  function DebitMeasures(keys: seq<DebitKey>): (ms: seq<Measure>)
    ensures |ms| == |keys| && forall i :: 0 <= i < |keys| ==> ms[i] == DebitTo(keys[i])
  {
    seq(|keys|, i requires 0 <= i < |keys| => DebitTo(keys[i]))
  }

  function OwedMeasures(items: seq<string>): (ms: seq<Measure>)
    ensures |ms| == |items| && forall i :: 0 <= i < |items| ==> ms[i] == OwedFor(items[i])
  {
    seq(|items|, i requires 0 <= i < |items| => OwedFor(items[i]))
  }

  lemma {:induction false} DebitOnce(config: Config, line: PayLine, keys: seq<DebitKey>, k: nat)
    requires k <= |keys| && forall i, j :: 0 <= i < j < |keys| ==> keys[i] != keys[j]
    ensures AddUp(config, line, DebitMeasures(keys), k)
      == if KeyOf(config, line).Some? && KeyOf(config, line).value in keys[..k] then line.amount else 0
  {
    if k > 0 {
      DebitOnce(config, line, keys, k - 1);
      assert keys[..k] == keys[..k - 1] + [keys[k - 1]];
    }
  }

  lemma {:induction false} OwedOnce(config: Config, line: PayLine, items: seq<string>, k: nat)
    requires k <= |items| && forall i, j :: 0 <= i < j < |items| ==> items[i] != items[j]
    ensures AddUp(config, line, OwedMeasures(items), k)
      == if OwedOf(config, line).Some? && OwedOf(config, line).value in items[..k] then line.amount else 0
  {
    if k > 0 {
      OwedOnce(config, line, items, k - 1);
      assert items[..k] == items[..k - 1] + [items[k - 1]];
    }
  }

  /** One side of the first `n` journal lines. */
  function SideTo(lines: seq<JournalLine>, side: Side, n: nat): int
    requires n <= |lines|
  {
    if n == 0 then 0 else SideTo(lines, side, n - 1) + (if lines[n - 1].side == side then lines[n - 1].amount else 0)
  }

  function SideOf(doc: JournalDoc, side: Side): int { SideTo(doc.lines, side, |doc.lines|) }

  lemma {:induction false} SideAppend(s: seq<JournalLine>, t: seq<JournalLine>, side: Side, n: nat)
    requires n <= |t|
    ensures SideTo(s + t, side, |s| + n) == SideTo(s, side, |s|) + SideTo(t, side, n)
  {
    if n > 0 {
      SideAppend(s, t, side, n - 1);
    } else {
      SidePrefix(s, t, side, |s|);
    }
  }

  lemma {:induction false} SidePrefix(s: seq<JournalLine>, t: seq<JournalLine>, side: Side, n: nat)
    requires n <= |s|
    ensures SideTo(s + t, side, n) == SideTo(s, side, n)
  {
    if n > 0 { SidePrefix(s, t, side, n - 1); }
  }

  lemma {:induction false} DebitLinesSide(config: Config, lines: seq<PayLine>, keys: seq<DebitKey>, k: nat)
    requires TotalOrder(config.before) && k <= |keys|
    ensures SideTo(DebitLines(config, lines, keys), Debit, k) == SumsUp(config, lines, DebitMeasures(keys), k, |lines|)
    ensures SideTo(DebitLines(config, lines, keys), Credit, k) == 0
  {
    if k > 0 { DebitLinesSide(config, lines, keys, k - 1); }
  }

  lemma {:induction false} OwedLinesSide(config: Config, lines: seq<PayLine>, items: seq<string>, k: nat)
    requires k <= |items|
    ensures SideTo(OwedLines(config, lines, items), Credit, k) == SumsUp(config, lines, OwedMeasures(items), k, |lines|)
    ensures SideTo(OwedLines(config, lines, items), Debit, k) == 0
  {
    if k > 0 { OwedLinesSide(config, lines, items, k - 1); }
  }

  lemma DebitsAddUp(config: Config, lines: seq<PayLine>, keys: seq<DebitKey>)
    requires forall k :: k in keys <==> k in DebitKeys(config, lines)
    requires forall i, j :: 0 <= i < j < |keys| ==> keys[i] != keys[j]
    ensures SumsUp(config, lines, DebitMeasures(keys), |keys|, |lines|) == SumOf(config, lines, Debits)
  {
    forall line | line in lines
      ensures AddUp(config, line, DebitMeasures(keys), |keys|) == Measured(config, line, Debits)
    {
      DebitOnce(config, line, keys, |keys|);
      assert keys[..|keys|] == keys;
    }
    SumsSplit(config, lines, DebitMeasures(keys), Debits, |lines|);
  }

  lemma OwedAddsUp(config: Config, lines: seq<PayLine>, items: seq<string>)
    requires forall k :: k in items <==> k in OwedItems(config, lines)
    requires forall i, j :: 0 <= i < j < |items| ==> items[i] != items[j]
    ensures SumsUp(config, lines, OwedMeasures(items), |items|, |lines|) == SumOf(config, lines, Owed)
  {
    forall line | line in lines
      ensures AddUp(config, line, OwedMeasures(items), |items|) == Measured(config, line, Owed)
    {
      OwedOnce(config, line, items, |items|);
      assert items[..|items|] == items;
    }
    SumsSplit(config, lines, OwedMeasures(items), Owed, |lines|);
  }

  /** Gross pay and employer costs are what is owed and what is paid out. */
  lemma {:induction false} PayEquation(config: Config, lines: seq<PayLine>, n: nat)
    requires n <= |lines| && Unmapped(config, lines) == {}
    ensures SumTo(config, lines, Debits, n) == SumTo(config, lines, Gross, n) + SumTo(config, lines, EmployerCosts, n)
    ensures SumTo(config, lines, Debits, n) == SumTo(config, lines, Owed, n) + SumTo(config, lines, Net, n)
  {
    if n > 0 {
      PayEquation(config, lines, n - 1);
      MappedLine(config, lines, n - 1);
    }
  }

  lemma MappedLine(config: Config, lines: seq<PayLine>, i: nat)
    requires i < |lines| && Unmapped(config, lines) == {}
    ensures lines[i].section.NetPay? || config.Resolve(lines[i]).Some?
  {
    assert lines[i] in lines;
    assert (lines[i].employee, lines[i].department) !in Unmapped(config, lines);
  }

  lemma {:induction false} ThreeParts(a: seq<JournalLine>, b: seq<JournalLine>, last: JournalLine, side: Side)
    ensures SideTo(a + b + [last], side, |a| + |b| + 1)
      == SideTo(a, side, |a|) + SideTo(b, side, |b|) + (if last.side == side then last.amount else 0)
  {
    SideAppend(a, b, side, |b|);
    SideAppend(a + b, [last], side, 1);
    assert SideTo([last], side, 0) == 0;
  }

  /** A document's lines: debits, liabilities and the bank. */
  lemma {:induction false} LinesSides(config: Config, lines: seq<PayLine>, keys: seq<DebitKey>, items: seq<string>)
    requires TotalOrder(config.before) && Lists(config, lines, keys, items)
    ensures var all := LinesOf(config, lines, keys, items);
      && SideTo(all, Debit, |all|) == SumOf(config, lines, Debits)
      && SideTo(all, Credit, |all|) == SumOf(config, lines, Owed) + SumOf(config, lines, Net)
  {
    var debits, owed := DebitLines(config, lines, keys), OwedLines(config, lines, items);
    var bank := JournalLine(config.bank, None, Credit, SumOf(config, lines, Net), []);
    ThreeParts(debits, owed, bank, Debit);
    ThreeParts(debits, owed, bank, Credit);
    DebitLinesSide(config, lines, keys, |keys|);
    OwedLinesSide(config, lines, items, |items|);
    DebitsAddUp(config, lines, keys);
    OwedAddsUp(config, lines, items);
  }

  lemma DocumentSides(run: PayRun, config: Config)
    requires TotalOrder(config.before)
    ensures SideOf(DocumentOf(run, config), Debit) == SumOf(config, run.lines, Debits)
    ensures SideOf(DocumentOf(run, config), Credit) == SumOf(config, run.lines, Owed) + SumOf(config, run.lines, Net)
  {
    KeysOrdered(config.before);
    LinesSides(config, run.lines, Sorted(DebitKeys(config, run.lines), KeyOrder(config.before)),
      Sorted(OwedItems(config, run.lines), config.before));
  }

  /** Every document returned balances: what it debits, gross pay and employer costs, is what it
      credits, liabilities and net pay. */
  lemma DocumentBalances(run: PayRun, config: Config)
    requires TotalOrder(config.before) && Outcome(run, config).Success?
    ensures var (doc, totals) := Outcome(run, config).value;
      && SideOf(doc, Debit) == SideOf(doc, Credit)
      && SideOf(doc, Debit) == totals.gross + totals.employerCosts == totals.liabilities + totals.netPay
      && totals.netPay >= 0
  {
    DocumentSides(run, config);
    PayEquation(config, run.lines, |run.lines|);
  }

  // ---- By class ----

  /** What the first `n` journal lines debit to a class. */
  function ClassDebits(lines: seq<JournalLine>, c: string, n: nat): int
    requires n <= |lines|
  {
    if n == 0 then 0
    else
      ClassDebits(lines, c, n - 1) +
      (if lines[n - 1].side.Debit? && lines[n - 1].class_ == Some(c) then lines[n - 1].amount else 0)
  }

  function ClassMeasures(keys: seq<DebitKey>, c: string): (ms: seq<Measure>)
    ensures |ms| == |keys| && forall i :: 0 <= i < |keys| ==>
        ms[i] == if keys[i].class_ == c then DebitTo(keys[i]) else Nothing
  {
    seq(|keys|, i requires 0 <= i < |keys| => if keys[i].class_ == c then DebitTo(keys[i]) else Nothing)
  }

  lemma {:induction false} ClassOnce(config: Config, line: PayLine, keys: seq<DebitKey>, c: string, k: nat)
    requires k <= |keys| && forall i, j :: 0 <= i < j < |keys| ==> keys[i] != keys[j]
    ensures AddUp(config, line, ClassMeasures(keys, c), k)
      == if KeyOf(config, line).Some? && KeyOf(config, line).value in keys[..k] &&
          KeyOf(config, line).value.class_ == c then line.amount else 0
  {
    if k > 0 {
      ClassOnce(config, line, keys, c, k - 1);
      assert keys[..k] == keys[..k - 1] + [keys[k - 1]];
    }
  }

  lemma {:induction false} NothingSums(config: Config, lines: seq<PayLine>, n: nat)
    requires n <= |lines|
    ensures SumTo(config, lines, Nothing, n) == 0
  {
    if n > 0 { NothingSums(config, lines, n - 1); }
  }

  lemma {:induction false} ClassLines(config: Config, lines: seq<PayLine>, keys: seq<DebitKey>, c: string, k: nat)
    requires TotalOrder(config.before) && k <= |keys|
    ensures ClassDebits(DebitLines(config, lines, keys), c, k) ==
        SumsUp(config, lines, ClassMeasures(keys, c), k, |lines|)
  {
    if k > 0 {
      ClassLines(config, lines, keys, c, k - 1);
      NothingSums(config, lines, |lines|);
    }
  }

  lemma ClassAddsUp(config: Config, lines: seq<PayLine>, keys: seq<DebitKey>, c: string)
    requires forall k :: k in keys <==> k in DebitKeys(config, lines)
    requires forall i, j :: 0 <= i < j < |keys| ==> keys[i] != keys[j]
    ensures SumsUp(config, lines, ClassMeasures(keys, c), |keys|, |lines|) == SumOf(config, lines, DebitsInClass(c))
  {
    forall line | line in lines
      ensures AddUp(config, line, ClassMeasures(keys, c), |keys|) == Measured(config, line, DebitsInClass(c))
    {
      ClassOnce(config, line, keys, c, |keys|);
      assert keys[..|keys|] == keys;
    }
    SumsSplit(config, lines, ClassMeasures(keys, c), DebitsInClass(c), |lines|);
  }

  lemma {:induction false} ClassPrefix(s: seq<JournalLine>, t: seq<JournalLine>, c: string, n: nat)
    requires n <= |s|
    ensures ClassDebits(s + t, c, n) == ClassDebits(s, c, n)
  {
    if n > 0 { ClassPrefix(s, t, c, n - 1); }
  }

  lemma {:induction false} NoClassDebits(s: seq<JournalLine>, t: seq<JournalLine>, c: string, n: nat)
    requires n <= |t| && forall i :: 0 <= i < |t| ==> t[i].side.Credit?
    ensures ClassDebits(s + t, c, |s| + n) == ClassDebits(s, c, |s|)
  {
    if n > 0 { NoClassDebits(s, t, c, n - 1); } else { ClassPrefix(s, t, c, |s|); }
  }

  lemma LinesByClass(config: Config, lines: seq<PayLine>, keys: seq<DebitKey>, items: seq<string>, c: string)
    requires TotalOrder(config.before) && Lists(config, lines, keys, items)
    ensures var all := LinesOf(config, lines, keys, items);
      ClassDebits(all, c, |all|) == SumOf(config, lines, DebitsInClass(c))
  {
    var debits, owed := DebitLines(config, lines, keys), OwedLines(config, lines, items);
    var bank := [JournalLine(config.bank, None, Credit, SumOf(config, lines, Net), [])];
    assert debits + owed + bank == debits + (owed + bank);
    NoClassDebits(debits, owed + bank, c, |owed + bank|);
    ClassLines(config, lines, keys, c, |keys|);
    ClassAddsUp(config, lines, keys, c);
  }

  /** Each class is debited exactly its own earnings and employer lines. */
  lemma ClassBalances(run: PayRun, config: Config, c: string)
    requires TotalOrder(config.before)
    ensures ClassDebits(DocumentOf(run, config).lines, c, |DocumentOf(run, config).lines|) ==
        SumOf(config, run.lines, DebitsInClass(c))
  {
    KeysOrdered(config.before);
    LinesByClass(config, run.lines, Sorted(DebitKeys(config, run.lines), KeyOrder(config.before)),
      Sorted(OwedItems(config, run.lines), config.before), c);
  }

  // ---- `journal_document` ----

  datatype Slot = Slot(amount: int, items: set<string>)

  /** The running maps and totals after the first `n` lines. */
  datatype Tally = Tally(
    debits: map<DebitKey, Slot>, owed: map<string, int>, computed: map<string, int>, stated: map<string, int>,
    gross: int, employerCosts: int, noncash: int)

  ghost predicate DebitsHold(config: Config, lines: seq<PayLine>, debits: map<DebitKey, Slot>, n: nat)
    requires n <= |lines|
  {
    && debits.Keys == DebitKeys(config, lines[..n])
    && (forall k :: k in debits ==>
        debits[k] == Slot(SumTo(config, lines, DebitTo(k), n), ItemsFor(config, lines[..n], k)))
  }

  ghost predicate OwedHold(config: Config, lines: seq<PayLine>, owed: map<string, int>, n: nat)
    requires n <= |lines|
  {
    owed.Keys == OwedItems(config, lines[..n]) && forall k :: k in owed ==>
        owed[k] == SumTo(config, lines, OwedFor(k), n)
  }

  ghost predicate NetsHold(config: Config, lines: seq<PayLine>, computed: map<string, int>, n: nat)
    requires n <= |lines|
  {
    computed.Keys == Employees(config, lines[..n]) && forall e :: e in computed ==>
        computed[e] == SumTo(config, lines, NetOf(e), n)
  }

  ghost predicate StatedHold(config: Config, lines: seq<PayLine>, stated: map<string, int>, n: nat)
    requires n <= |lines|
  {
    stated.Keys == Stating(config, lines[..n]) && forall e :: e in stated ==>
        stated[e] == SumTo(config, lines, StatedFor(e), n)
  }

  ghost predicate Tallied(config: Config, lines: seq<PayLine>, t: Tally, n: nat)
    requires n <= |lines|
  {
    && DebitsHold(config, lines, t.debits, n) && OwedHold(config, lines, t.owed, n)
    && NetsHold(config, lines, t.computed, n) && StatedHold(config, lines, t.stated, n)
    && t.gross == SumTo(config, lines, Gross, n) && t.employerCosts == SumTo(config, lines, EmployerCosts, n)
    && t.noncash == SumTo(config, lines, Noncash, n)
  }

  function Amount(m: map<string, int>, k: string): int { if k in m then m[k] else 0 }

  /** The debit of a line. */
  function AddDebit(config: Config, debits: map<DebitKey, Slot>, line: PayLine): map<DebitKey, Slot> {
    match KeyOf(config, line)
    case None => debits
    case Some(key) =>
      var was := if key in debits then debits[key] else Slot(0, {});
      debits[key := Slot(was.amount + line.amount, was.items + {config.trim(line.item)})]
  }

  function AddOwed(config: Config, owed: map<string, int>, line: PayLine): map<string, int> {
    match OwedOf(config, line)
    case None => owed
    case Some(item) => owed[item := Amount(owed, item) + line.amount]
  }

  // Keys no line has come to yet have nothing on them.

  lemma {:induction false} NoDebit(config: Config, lines: seq<PayLine>, key: DebitKey, n: nat)
    requires n <= |lines| && key !in DebitKeys(config, lines[..n])
    ensures SumTo(config, lines, DebitTo(key), n) == 0 && ItemsFor(config, lines[..n], key) == {}
  {
    if n > 0 {
      assert lines[..n] == lines[..n - 1] + [lines[n - 1]];
      assert lines[n - 1] in lines[..n];
      NoDebit(config, lines, key, n - 1);
    }
  }

  lemma {:induction false} NoOwed(config: Config, lines: seq<PayLine>, item: string, n: nat)
    requires n <= |lines| && item !in OwedItems(config, lines[..n])
    ensures SumTo(config, lines, OwedFor(item), n) == 0
  {
    if n > 0 {
      assert lines[..n] == lines[..n - 1] + [lines[n - 1]];
      assert lines[n - 1] in lines[..n];
      NoOwed(config, lines, item, n - 1);
    }
  }

  lemma {:induction false} NoNet(config: Config, lines: seq<PayLine>, e: string, n: nat)
    requires n <= |lines| && e !in Employees(config, lines[..n])
    ensures SumTo(config, lines, NetOf(e), n) == 0
  {
    if n > 0 {
      assert lines[..n] == lines[..n - 1] + [lines[n - 1]];
      assert lines[n - 1] in lines[..n];
      NoNet(config, lines, e, n - 1);
    }
  }

  lemma {:induction false} NoStated(config: Config, lines: seq<PayLine>, e: string, n: nat)
    requires n <= |lines| && e !in Stating(config, lines[..n])
    ensures SumTo(config, lines, StatedFor(e), n) == 0
  {
    if n > 0 {
      assert lines[..n] == lines[..n - 1] + [lines[n - 1]];
      assert lines[n - 1] in lines[..n];
      NoStated(config, lines, e, n - 1);
    }
  }

  /** The debit keys a line adds: its own, if it has one. */
  function OneKey(config: Config, line: PayLine): set<DebitKey> {
    if KeyOf(config, line).Some? then {KeyOf(config, line).value} else {}
  }

  function OneOwed(config: Config, line: PayLine): set<string> {
    if OwedOf(config, line).Some? then {OwedOf(config, line).value} else {}
  }

  function OneStating(config: Config, line: PayLine): set<string> {
    if line.section.NetPay? then {config.trim(line.employee)} else {}
  }

  function OneItem(config: Config, line: PayLine, key: DebitKey): set<string> {
    if KeyOf(config, line) == Some(key) then {config.trim(line.item)} else {}
  }

  lemma KeysNext(config: Config, lines: seq<PayLine>, n: nat)
    requires n < |lines|
    ensures DebitKeys(config, lines[..n + 1]) == DebitKeys(config, lines[..n]) + OneKey(config, lines[n])
    ensures OwedItems(config, lines[..n + 1]) == OwedItems(config, lines[..n]) + OneOwed(config, lines[n])
    ensures Employees(config, lines[..n + 1]) == Employees(config, lines[..n]) + {config.trim(lines[n].employee)}
    ensures Stating(config, lines[..n + 1]) == Stating(config, lines[..n]) + OneStating(config, lines[n])
  {
    assert lines[..n + 1] == lines[..n] + [lines[n]];
  }

  lemma ItemsNext(config: Config, lines: seq<PayLine>, key: DebitKey, n: nat)
    requires n < |lines|
    ensures ItemsFor(config, lines[..n + 1], key) == ItemsFor(config, lines[..n], key) + OneItem(config, lines[n], key)
  {
    assert lines[..n + 1] == lines[..n] + [lines[n]];
  }

  lemma SlotNext(config: Config, lines: seq<PayLine>, debits: map<DebitKey, Slot>, key: DebitKey, n: nat)
    requires n < |lines| && DebitsHold(config, lines, debits, n) && key in AddDebit(config, debits, lines[n])
    ensures AddDebit(config, debits, lines[n])[key] ==
        Slot(SumTo(config, lines, DebitTo(key), n + 1), ItemsFor(config, lines[..n + 1], key))
  {
    ItemsNext(config, lines, key, n);
    if key !in debits { NoDebit(config, lines, key, n); }
  }

  lemma DebitsNext(config: Config, lines: seq<PayLine>, debits: map<DebitKey, Slot>, n: nat)
    requires n < |lines| && DebitsHold(config, lines, debits, n)
    ensures DebitsHold(config, lines, AddDebit(config, debits, lines[n]), n + 1)
  {
    KeysNext(config, lines, n);
    var now := AddDebit(config, debits, lines[n]);
    forall key | key in now
      ensures now[key] == Slot(SumTo(config, lines, DebitTo(key), n + 1), ItemsFor(config, lines[..n + 1], key))
    {
      SlotNext(config, lines, debits, key, n);
    }
    assert now.Keys == debits.Keys + OneKey(config, lines[n]);
  }

  lemma OwedNext(config: Config, lines: seq<PayLine>, owed: map<string, int>, n: nat)
    requires n < |lines| && OwedHold(config, lines, owed, n)
    ensures OwedHold(config, lines, AddOwed(config, owed, lines[n]), n + 1)
  {
    KeysNext(config, lines, n);
    if OwedOf(config, lines[n]).Some? && OwedOf(config, lines[n]).value !in owed {
      NoOwed(config, lines, OwedOf(config, lines[n]).value, n);
    }
  }

  lemma {:induction false} NetsNext(config: Config, lines: seq<PayLine>, computed: map<string, int>, n: nat)
    requires n < |lines| && NetsHold(config, lines, computed, n)
    ensures NetsHold(config, lines, AddNet(config, computed, lines[n]), n + 1)
  {
    KeysNext(config, lines, n);
    var e := config.trim(lines[n].employee);
    if e !in computed { NoNet(config, lines, e, n); }
  }

  lemma {:induction false} StatedNext(config: Config, lines: seq<PayLine>, stated: map<string, int>, n: nat)
    requires n < |lines| && StatedHold(config, lines, stated, n)
    ensures StatedHold(config, lines, AddStated(config, stated, lines[n]), n + 1)
  {
    KeysNext(config, lines, n);
    var e := config.trim(lines[n].employee);
    if e !in stated { NoStated(config, lines, e, n); }
  }

  function AddStated(config: Config, stated: map<string, int>, line: PayLine): map<string, int> {
    var e := config.trim(line.employee);
    if line.section.NetPay? then stated[e := Amount(stated, e) + line.amount] else stated
  }

  function AddNet(config: Config, computed: map<string, int>, line: PayLine): map<string, int> {
    var e := config.trim(line.employee);
    computed[e := Amount(computed, e) + NetPart(line)]
  }

  function TallyAfter(config: Config, t: Tally, line: PayLine): Tally {
    Tally(AddDebit(config, t.debits, line), AddOwed(config, t.owed, line), AddNet(config, t.computed, line),
        AddStated(config, t.stated, line),
      t.gross + Measured(config, line, Gross), t.employerCosts + Measured(config, line, EmployerCosts), t.noncash +
          Measured(config, line, Noncash))
  }

  lemma TalliedNext(config: Config, lines: seq<PayLine>, t: Tally, n: nat)
    requires n < |lines| && Tallied(config, lines, t, n)
    ensures Tallied(config, lines, TallyAfter(config, t, lines[n]), n + 1)
  {
    DebitsNext(config, lines, t.debits, n);
    OwedNext(config, lines, t.owed, n);
    NetsNext(config, lines, t.computed, n);
    StatedNext(config, lines, t.stated, n);
  }

  /** What one line adds, section by section. */
  method TallyLine(config: Config, t: Tally, line: PayLine) returns (t': Tally)
    requires line.section.NetPay? || config.Resolve(line).Some?
    ensures t' == TallyAfter(config, t, line)
  {
    var e := config.trim(line.employee);
    var net := Amount(t.computed, e);
    var debits, owed, stated, gross, costs, noncash := t.debits, t.owed, t.stated, t.gross, t.employerCosts, t.noncash;
    match line.section {
      case NetPay =>
        stated := stated[e := Amount(stated, e) + line.amount];
      case Earning =>
        debits := AddDebit(config, debits, line);
        net, gross := net + line.amount, gross + line.amount;
      case NoncashEarning =>
        noncash := noncash + line.amount;
      case EmployeeTax =>
        owed := AddOwed(config, owed, line);
        net := net - line.amount;
      case EmployeeDeduction =>
        owed := AddOwed(config, owed, line);
        net := net - line.amount;
      case EmployerTax =>
        debits, owed := AddDebit(config, debits, line), AddOwed(config, owed, line);
        costs := costs + line.amount;
      case EmployerDeduction =>
        debits, owed := AddDebit(config, debits, line), AddOwed(config, owed, line);
        costs := costs + line.amount;
    }
    t' := Tally(debits, owed, t.computed[e := net], stated, gross, costs, noncash);
  }

  /** Whether an employee's stated net pay is not what was computed. */
  ghost predicate IsMismatched(config: Config, lines: seq<PayLine>, e: string) {
    SumOf(config, lines, StatedFor(e)) != SumOf(config, lines, NetOf(e))
  }

  /** The first mismatch along an order. */
  method FirstMismatch(config: Config, ghost lines: seq<PayLine>, t: Tally, order: seq<string>) returns (at: nat)
    requires Tallied(config, lines, t, |lines|) && forall e :: e in order ==> e in t.stated
    ensures at <= |order| && forall j :: 0 <= j < at ==> !IsMismatched(config, lines, order[j])
    ensures at < |order| ==> IsMismatched(config, lines, order[at])
  {
    at := 0;
    while at < |order|
      invariant at <= |order| && forall j :: 0 <= j < at ==> !IsMismatched(config, lines, order[j])
    {
      var e := order[at];
      assert e in order;
      NetKnown(config, lines, t, e);
      if t.stated[e] != Amount(t.computed, e) { return; }
      at := at + 1;
    }
  }

  /** The check of stated against computed net pay, employee by employee in order. */
  method FindMismatch(config: Config, ghost lines: seq<PayLine>, t: Tally) returns (found: Option<(int, int)>)
    requires TotalOrder(config.before) && Tallied(config, lines, t, |lines|)
    ensures found.None? <==> Mismatched(config, lines) == {}
    ensures found.Some? ==>
      var e := Least(Mismatched(config, lines), config.before);
      found.value == (SumOf(config, lines, StatedFor(e)), SumOf(config, lines, NetOf(e)))
  {
    assert lines[..|lines|] == lines;
    var order := Sort(t.stated.Keys, config.before);
    var at := FirstMismatch(config, lines, t, order);
    MismatchedAre(config, lines, order, at);
    if at < |order| {
      var e := order[at];
      assert e in order;
      NetKnown(config, lines, t, e);
      LeastUnique(Mismatched(config, lines), config.before, e, Least(Mismatched(config, lines), config.before));
      found := Some((t.stated[e], Amount(t.computed, e)));
    } else {
      found := None;
    }
  }

  lemma MismatchedAre(config: Config, lines: seq<PayLine>, order: seq<string>, at: nat)
    requires at <= |order| && forall e :: e in order <==> e in Stating(config, lines)
    requires forall a, b :: 0 <= a < b < |order| ==> config.before(order[a], order[b])
    requires forall j :: 0 <= j < at ==> !IsMismatched(config, lines, order[j])
    requires at < |order| ==> IsMismatched(config, lines, order[at])
    ensures at == |order| <==> Mismatched(config, lines) == {}
    ensures at < |order| ==> IsLeast(Mismatched(config, lines), config.before, order[at])
  {
    forall e | e in Mismatched(config, lines) ensures exists j :: at <= j < |order| && order[j] == e {
      assert e in order && IsMismatched(config, lines, e);
    }
    if at < |order| { assert order[at] in order && order[at] in Mismatched(config, lines); }
  }

  lemma NetKnown(config: Config, lines: seq<PayLine>, t: Tally, e: string)
    requires Tallied(config, lines, t, |lines|)
    ensures Amount(t.computed, e) == SumOf(config, lines, NetOf(e))
  {
    if e !in t.computed { NoNet(config, lines, e, |lines|); }
  }

  /** The sum of a map's values. */
  method SumValues(m: map<string, int>, before: (string, string) -> bool) returns (total: int)
    requires TotalOrder(before)
    ensures total == ValuesTo(m, Sorted(m.Keys, before), |Sorted(m.Keys, before)|)
  {
    var keys := Sort(m.Keys, before);
    total := SumAlong(m, keys);
  }

  method SumAlong(m: map<string, int>, keys: seq<string>) returns (total: int)
    requires forall k :: k in keys ==> k in m
    ensures total == ValuesTo(m, keys, |keys|)
  {
    total := 0;
    for i := 0 to |keys|
      invariant total == ValuesTo(m, keys, i)
    {
      assert keys[i] in keys;
      total := total + m[keys[i]];
    }
  }

  function ValuesTo(m: map<string, int>, order: seq<string>, n: nat): int
    requires n <= |order| && forall k :: k in order ==> k in m
  {
    if n == 0 then 0
    else
      assert order[n - 1] in order;
      ValuesTo(m, order, n - 1) + m[order[n - 1]]
  }

  function NetMeasures(employees: seq<string>): (ms: seq<Measure>)
    ensures |ms| == |employees| && forall i :: 0 <= i < |employees| ==> ms[i] == NetOf(employees[i])
  {
    seq(|employees|, i requires 0 <= i < |employees| => NetOf(employees[i]))
  }

  lemma {:induction false} NetOnce(config: Config, line: PayLine, employees: seq<string>, k: nat)
    requires k <= |employees| && forall i, j :: 0 <= i < j < |employees| ==> employees[i] != employees[j]
    ensures AddUp(config, line, NetMeasures(employees), k) ==
        if config.trim(line.employee) in employees[..k] then NetPart(line) else 0
  {
    if k > 0 {
      NetOnce(config, line, employees, k - 1);
      assert employees[..k] == employees[..k - 1] + [employees[k - 1]];
    }
  }

  lemma {:induction false} NetValues(config: Config, lines: seq<PayLine>, m: map<string, int>, order: seq<string>,
                                     n: nat)
    requires n <= |order| && (forall k :: k in order ==> k in m) && NetsHold(config, lines, m, |lines|)
    ensures ValuesTo(m, order, n) == SumsUp(config, lines, NetMeasures(order), n, |lines|)
  {
    if n > 0 {
      assert order[n - 1] in order;
      NetValues(config, lines, m, order, n - 1);
    }
  }

  lemma {:induction false} OwedValues(config: Config, lines: seq<PayLine>, m: map<string, int>, order: seq<string>,
                                      n: nat)
    requires n <= |order| && (forall k :: k in order ==> k in m) && OwedHold(config, lines, m, |lines|)
    ensures ValuesTo(m, order, n) == SumsUp(config, lines, OwedMeasures(order), n, |lines|)
  {
    if n > 0 {
      assert order[n - 1] in order;
      OwedValues(config, lines, m, order, n - 1);
    }
  }

  lemma NetTotal(config: Config, lines: seq<PayLine>, m: map<string, int>, order: seq<string>)
    requires NetsHold(config, lines, m, |lines|) && (forall k :: k in order <==> k in m)
    requires forall i, j :: 0 <= i < j < |order| ==> order[i] != order[j]
    ensures ValuesTo(m, order, |order|) == SumOf(config, lines, Net)
  {
    NetValues(config, lines, m, order, |order|);
    assert lines[..|lines|] == lines;
    forall line | line in lines
      ensures AddUp(config, line, NetMeasures(order), |order|) == Measured(config, line, Net)
    {
      NetOnce(config, line, order, |order|);
      assert order[..|order|] == order;
      assert config.trim(line.employee) in Employees(config, lines);
    }
    SumsSplit(config, lines, NetMeasures(order), Net, |lines|);
  }

  lemma OwedTotal(config: Config, lines: seq<PayLine>, m: map<string, int>, order: seq<string>)
    requires OwedHold(config, lines, m, |lines|) && (forall k :: k in order <==> k in m)
    requires forall i, j :: 0 <= i < j < |order| ==> order[i] != order[j]
    ensures ValuesTo(m, order, |order|) == SumOf(config, lines, Owed)
  {
    OwedValues(config, lines, m, order, |order|);
    assert lines[..|lines|] == lines;
    OwedAddsUp(config, lines, order);
  }

  lemma DebitSlot(config: Config, lines: seq<PayLine>, debits: map<DebitKey, Slot>, key: DebitKey)
    requires TotalOrder(config.before) && DebitsHold(config, lines, debits, |lines|) && key in debits
    ensures DebitLine(config, lines, key)
         == JournalLine(key.account, Some(key.class_), Debit, debits[key].amount,
             Sorted(debits[key].items, config.before))
  {
    assert lines[..|lines|] == lines;
  }

  method WriteDebit(config: Config, ghost lines: seq<PayLine>, debits: map<DebitKey, Slot>, key: DebitKey)
      returns (line: JournalLine)
    requires TotalOrder(config.before) && DebitsHold(config, lines, debits, |lines|) && key in debits
    ensures line == DebitLine(config, lines, key)
  {
    DebitSlot(config, lines, debits, key);
    var items := Sort(debits[key].items, config.before);
    line := JournalLine(key.account, Some(key.class_), Debit, debits[key].amount, items);
  }

  method WriteDebits(config: Config, ghost lines: seq<PayLine>, debits: map<DebitKey, Slot>, keys: seq<DebitKey>)
      returns (out: seq<JournalLine>)
    requires TotalOrder(config.before) && DebitsHold(config, lines, debits, |lines|) && forall k :: k in keys ==>
        k in debits
    ensures out == DebitLines(config, lines, keys)
  {
    out := [];
    for i := 0 to |keys|
      invariant |out| == i && forall j :: 0 <= j < i ==> out[j] == DebitLine(config, lines, keys[j])
    {
      assert keys[i] in keys;
      var line := WriteDebit(config, lines, debits, keys[i]);
      out := out + [line];
    }
  }

  method WriteOwed(config: Config, ghost lines: seq<PayLine>, owed: map<string, int>, items: seq<string>)
      returns (out: seq<JournalLine>)
    requires OwedHold(config, lines, owed, |lines|) && forall k :: k in items ==> k in owed
    ensures out == OwedLines(config, lines, items)
  {
    out := [];
    for i := 0 to |items|
      invariant |out| == i && forall j :: 0 <= j < i ==> out[j] == OwedLine(config, lines, items[j])
    {
      assert items[i] in items;
      out := out + [JournalLine(config.liabilities, None, Credit, owed[items[i]], [items[i]])];
    }
  }

  /** The lines of the document, and the bank's. */
  method WriteLines(config: Config, ghost lines: seq<PayLine>, t: Tally, net: int) returns (out: seq<JournalLine>)
    requires TotalOrder(config.before) && Tallied(config, lines, t, |lines|) && net == SumOf(config, lines, Net)
    ensures TotalOrder(KeyOrder(config.before))
    ensures out == LinesOf(config, lines, Sorted(DebitKeys(config, lines), KeyOrder(config.before)),
        Sorted(OwedItems(config, lines), config.before))
  {
    KeysOrdered(config.before);
    assert lines[..|lines|] == lines;
    var keys := Sort(t.debits.Keys, KeyOrder(config.before));
    var debits := WriteDebits(config, lines, t.debits, keys);
    var items := Sort(t.owed.Keys, config.before);
    var owed := WriteOwed(config, lines, t.owed, items);
    out := debits + owed + [JournalLine(config.bank, None, Credit, net, [])];
  }

  method FindUnmapped(config: Config, lines: seq<PayLine>) returns (unmapped: set<(string, Option<string>)>)
    ensures unmapped == Unmapped(config, lines)
  {
    unmapped := {};
    for i := 0 to |lines|
      invariant unmapped == Unmapped(config, lines[..i])
    {
      assert lines[..i + 1] == lines[..i] + [lines[i]];
      if !lines[i].section.NetPay? && config.Resolve(lines[i]).None? {
        unmapped := unmapped + {(lines[i].employee, lines[i].department)};
      }
    }
    assert lines[..|lines|] == lines;
  }

  method TallyAll(config: Config, lines: seq<PayLine>) returns (t: Tally)
    requires Unmapped(config, lines) == {}
    ensures Tallied(config, lines, t, |lines|)
  {
    t := Tally(map[], map[], map[], map[], 0, 0, 0);
    assert lines[..0] == [];
    for i := 0 to |lines|
      invariant Tallied(config, lines, t, i)
    {
      MappedLine(config, lines, i);
      TalliedNext(config, lines, t, i);
      t := TallyLine(config, t, lines[i]);
    }
  }

  /** `journal_document`. */
  method JournalDocument(run: PayRun, config: Config) returns (r: Result<(JournalDoc, Totals), PayrollError>)
    requires TotalOrder(config.before)
    ensures r == Outcome(run, config)
  {
    if config.trim(run.runId) == "" { return Failure(EmptyRunId); }
    if run.lines == [] { return Failure(NoLines); }
    var unmapped := FindUnmapped(config, run.lines);
    if unmapped != {} { return Failure(NotMapped(unmapped)); }
    var t := TallyAll(config, run.lines);
    var mismatch := FindMismatch(config, run.lines, t);
    if mismatch.Some? { return Failure(NetPayMismatch(mismatch.value.0, mismatch.value.1)); }
    assert run.lines[..|run.lines|] == run.lines;
    var net := SumValues(t.computed, config.before);
    NetTotal(config, run.lines, t.computed, Sorted(t.computed.Keys, config.before));
    var owed := SumValues(t.owed, config.before);
    OwedTotal(config, run.lines, t.owed, Sorted(t.owed.Keys, config.before));
    if net < 0 { return Failure(NegativeNet); }
    if t.gross == 0 && t.employerCosts == 0 { return Failure(NothingToPost); }
    var lines := WriteLines(config, run.lines, t, net);
    r := Success((JournalDoc(run.runId, run.payDate, lines), Totals(t.gross, t.employerCosts, owed, net, t.noncash)));
  }
}
