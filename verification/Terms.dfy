/** Payment terms: when a document falls due. A month is counted from the start of year zero,
    and a date is a day of a month. */
module Terms {

  predicate IsLeap(year: int) { year % 4 == 0 && (year % 100 != 0 || year % 400 == 0) }

  /** How many days a month has; month zero is a January. */
  function DaysIn(month: int): (n: int)
    ensures 28 <= n <= 31
  {
    var (year, m) := (month / 12, month % 12);
    if m == 1 then (if IsLeap(year) then 29 else 28)
    else if m == 3 || m == 5 || m == 8 || m == 10 then 30
    else 31
  }

  /** The day number of the first of a month. */
  function Start(month: int): int
    decreases if month >= 0 then month else -month
  {
    if month == 0 then 0
    else if month > 0 then Start(month - 1) + DaysIn(month - 1)
    else Start(month + 1) - DaysIn(month)
  }

  lemma NextStart(month: int)
    ensures Start(month + 1) == Start(month) + DaysIn(month)
  {}

  /** The days before the first of a year: 365 a year, one more for every fourth but for the hundredths, and for the
      four hundredths again. */
  function DaysBefore(year: int): int { 365 * year + (year + 3) / 4 - (year + 99) / 100 + (year + 399) / 400 }

  /** The days of a common year before each of its months. */
  const BEFORE := [0, 31, 59, 90, 120, 151, 181, 212, 243, 273, 304, 334, 365]

  /** The days of a year before its month `m`, given how long the year is. */
  function Into(m: nat, length: int): int
    requires m <= 12
  {
    BEFORE[m] + (if m > 1 then length - 365 else 0)
  }

  /** One more year passes one more multiple exactly when it is one. */
  lemma EveryFourth(year: int)
    ensures (year + 4) / 4 - (year + 3) / 4 == if year % 4 == 0 then 1 else 0
  {}

  lemma EveryHundredth(year: int)
    ensures (year + 100) / 100 - (year + 99) / 100 == if year % 100 == 0 then 1 else 0
  {}

  lemma EveryFourHundredth(year: int)
    ensures (year + 400) / 400 - (year + 399) / 400 == if year % 400 == 0 then 1 else 0
  {}

  lemma MultiplesNest(year: int)
    ensures year % 100 == 0 ==> year % 4 == 0
    ensures year % 400 == 0 ==> year % 100 == 0
  {
    if year % 100 == 0 { assert year == 4 * (25 * (year / 100)); }
    if year % 400 == 0 { assert year == 100 * (4 * (year / 400)); }
  }

  lemma DaysGrow(year: int)
    ensures DaysBefore(year + 1) - DaysBefore(year) ==
            365 + ((year + 4) / 4 - (year + 3) / 4) - ((year + 100) / 100 - (year + 99) / 100) +
            ((year + 400) / 400 - (year + 399) / 400)
  {}

  predicate Divides(n: int, year: int)
    requires n != 0
  {
    year % n == 0
  }

  lemma DaysGrowBy(year: int)
    ensures DaysBefore(year + 1) - DaysBefore(year) ==
            365 + (if Divides(4, year) then 1 else 0) - (if Divides(100, year) then 1 else 0) +
            (if Divides(400, year) then 1 else 0)
  {
    DaysGrow(year);
    EveryFourth(year);
    EveryHundredth(year);
    EveryFourHundredth(year);
  }

  lemma YearIsLong(year: int)
    ensures DaysBefore(year + 1) - DaysBefore(year) == if IsLeap(year) then 366 else 365
  {
    DaysGrowBy(year);
    MultiplesNest(year);
  }

  lemma MonthOf(year: int, m: nat)
    requires m < 12
    ensures (12 * year + m) / 12 == year && (12 * year + m) % 12 == m
  {}

  /** A year runs from month to month. */
  lemma MonthsRun(year: int, m: nat)
    requires m <= 12
    ensures Start(12 * year + m) == Start(12 * year) + Into(m, DaysBefore(year + 1) - DaysBefore(year))
  {
    for i := 0 to m
      invariant Start(12 * year + i) == Start(12 * year) + Into(i, DaysBefore(year + 1) - DaysBefore(year))
    {
      MonthIsLong(year, i);
      NextStart(12 * year + i);
    }
  }

  lemma MonthIsLong(year: int, m: nat)
    requires m < 12
    ensures var length := DaysBefore(year + 1) - DaysBefore(year);
            DaysIn(12 * year + m) == Into(m + 1, length) - Into(m, length)
  {
    MonthOf(year, m);
    YearIsLong(year);
  }

  predicate StartsAsSaid(year: int) { Start(12 * year) == DaysBefore(year) }

  lemma NextYear(year: int)
    ensures StartsAsSaid(year) <==> StartsAsSaid(year + 1)
  {
    MonthsRun(year, 12);
    assert 12 * year + 12 == 12 * (year + 1);
  }

  lemma YearStarts(year: int)
    ensures StartsAsSaid(year)
  {
    if year >= 0 {
      for y := 0 to year
        invariant StartsAsSaid(y)
      {
        NextYear(y);
      }
    } else {
      for y := 0 downto year
        invariant StartsAsSaid(y)
      {
        NextYear(y);
      }
    }
  }

  /** The first of every month of every year is the day the Gregorian calendar says; in four hundred years 146097 days
      go by. */
  lemma Gregorian(year: int, m: nat)
    requires m < 12
    ensures Start(12 * year + m) == DaysBefore(year) + Into(m, DaysBefore(year + 1) - DaysBefore(year))
    ensures DaysIn(12 * year + m) ==
            Into(m + 1, DaysBefore(year + 1) - DaysBefore(year)) - Into(m, DaysBefore(year + 1) - DaysBefore(year))
    ensures DaysBefore(year + 400) == DaysBefore(year) + 146097
  {
    YearStarts(year);
    MonthsRun(year, m);
    MonthsRun(year, m + 1);
    NextStart(12 * year + m);
  }

  datatype Date = Date(month: int, day: int)

  predicate IsDate(d: Date) { 1 <= d.day <= DaysIn(d.month) }

  /** The day number of a date; differences are numbers of days. */
  function Number(d: Date): int { Start(d.month) + d.day - 1 }

  datatype Term = Net(days: int) | DayOfMonth(day: nat, nextMonthWithin: nat)

  /** `day` of the month, or the month's last day when it has fewer (`day_in_month`). */
  function DayInMonth(month: int, day: nat): (d: Date)
    ensures IsDate(d) && d.month == month
  {
    Date(month, if day < 1 then 1 else if day > DaysIn(month) then DaysIn(month) else day)
  }

  /** The date a number of days after another. */
  function AddDays(d: Date, days: nat): (r: Date)
    requires IsDate(d)
    ensures IsDate(r) && Number(r) == Number(d) + days
    decreases days
  {
    var left := DaysIn(d.month) - d.day;
    if days <= left then d.(day := d.day + days) else AddDays(Date(d.month + 1, 1), days - left - 1)
  }

  /** `Terms::due_date`. */
  method DueDate(terms: Term, txn: Date) returns (due: Date)
    requires IsDate(txn)
    ensures due == DueDateOf(terms, txn) && IsDate(due)
  {
    match terms
    case Net(days) =>
      due := AddDays(txn, if days > 0 then days else 0);
    case DayOfMonth(day, nextMonthWithin) =>
      due := DayInMonth(txn.month, day);
      if Number(due) < Number(txn) { due := DayInMonth(due.month + 1, day); }
      if Number(due) - Number(txn) <= nextMonthWithin { due := DayInMonth(due.month + 1, day); }
  }

  /** The first month whose term day is on or after a date. */
  function FirstMonth(txn: Date, day: nat): int {
    if Number(DayInMonth(txn.month, day)) < Number(txn) then txn.month + 1 else txn.month
  }

  /** The month the document falls due in: that one, or the next when the day is too near. */
  function DueMonth(txn: Date, day: nat, within: nat): int {
    var first := FirstMonth(txn, day);
    if Number(DayInMonth(first, day)) - Number(txn) <= within then first + 1 else first
  }

  function DueDateOf(terms: Term, txn: Date): Date
    requires IsDate(txn)
  {
    match terms
    case Net(days) => AddDays(txn, if days > 0 then days else 0)
    case DayOfMonth(day, within) => DayInMonth(DueMonth(txn, day, within), day)
  }

  /** Term days of later months are later. */
  lemma {:induction false} TermDaysIncrease(a: int, b: int, day: nat)
    requires a < b
    ensures Number(DayInMonth(a, day)) < Number(DayInMonth(b, day))
    decreases b - a
  {
    NextStart(b - 1);
    if a < b - 1 { TermDaysIncrease(a, b - 1, day); }
  }

  /** A date in a month is before every date of a later month. */
  lemma {:induction false} LaterMonthLater(d: Date, e: Date)
    requires IsDate(d) && IsDate(e) && d.month < e.month
    ensures Number(d) < Number(e)
    decreases e.month - d.month
  {
    NextStart(e.month - 1);
    if d.month < e.month - 1 { LaterMonthLater(d, Date(e.month - 1, 1)); }
  }

  /** No term day lies between a date and the first one on or after it. */
  lemma FirstMonthIsFirst(txn: Date, day: nat, month: int)
    requires IsDate(txn)
    ensures Number(txn) <= Number(DayInMonth(FirstMonth(txn, day), day))
    ensures Number(txn) <= Number(DayInMonth(month, day)) <==> FirstMonth(txn, day) <= month
  {
    var first := FirstMonth(txn, day);
    if first > txn.month { LaterMonthLater(txn, DayInMonth(first, day)); }
    if month < txn.month { LaterMonthLater(DayInMonth(month, day), txn); }
    if first < month { TermDaysIncrease(first, month, day); }
    if txn.month < month { LaterMonthLater(txn, DayInMonth(month, day)); }
  }

  /** A document falls due strictly after its date, on the term day (or the last day of a shorter
      month), at most two months on. */
  lemma DueAfter(txn: Date, day: nat, within: nat)
    requires IsDate(txn)
    ensures var due := DueDateOf(DayOfMonth(day, within), txn);
      && Number(txn) < Number(due)
      && (due.day == day || due.day == DaysIn(due.month) < day || due.day == 1 > day)
      && txn.month <= due.month <= txn.month + 2
  {
    var first := FirstMonth(txn, day);
    FirstMonthIsFirst(txn, day, first);
    TermDaysIncrease(first, first + 1, day);
  }

  /** It is the first term day more than `within` days away, or the one after the first term day
      when that one is near: one term day is skipped at most. */
  lemma DueIsFirstOrSecond(txn: Date, day: nat, within: nat, month: int)
    requires IsDate(txn)
    ensures var due := DueDateOf(DayOfMonth(day, within), txn);
      && (Number(DayInMonth(month, day)) - Number(txn) > within && month <= FirstMonth(txn, day) ==>
          due == DayInMonth(month, day))
      && (Number(due) - Number(txn) <= within ==> due.month == FirstMonth(txn, day) + 1)
  {
    var first := FirstMonth(txn, day);
    FirstMonthIsFirst(txn, day, month);
    if month < first { TermDaysIncrease(month, first, day); }
  }

  lemma FirstMonthMonotone(a: Date, b: Date, day: nat)
    requires IsDate(a) && IsDate(b) && Number(a) <= Number(b)
    ensures FirstMonth(a, day) <= FirstMonth(b, day)
  {
    FirstMonthIsFirst(b, day, FirstMonth(b, day));
    FirstMonthIsFirst(a, day, FirstMonth(b, day));
  }

  lemma DueMonthMonotone(a: Date, b: Date, day: nat, within: nat)
    requires IsDate(a) && IsDate(b) && Number(a) <= Number(b)
    ensures DueMonth(a, day, within) <= DueMonth(b, day, within)
  {
    FirstMonthMonotone(a, b, day);
  }

  lemma TermDaysMonotone(a: int, b: int, day: nat)
    requires a <= b
    ensures Number(DayInMonth(a, day)) <= Number(DayInMonth(b, day))
  {
    if a < b { TermDaysIncrease(a, b, day); }
  }

  /** Later documents never fall due earlier. */
  lemma DueMonotone(terms: Term, a: Date, b: Date)
    requires IsDate(a) && IsDate(b) && Number(a) <= Number(b)
    ensures Number(DueDateOf(terms, a)) <= Number(DueDateOf(terms, b))
  {
    if terms.DayOfMonth? {
      DueMonthMonotone(a, b, terms.day, terms.nextMonthWithin);
      TermDaysMonotone(DueMonth(a, terms.day, terms.nextMonthWithin), DueMonth(b, terms.day, terms.nextMonthWithin),
          terms.day);
    }
  }

  /** Net terms fall due the stated days on, never before the document. */
  lemma NetDue(days: int, txn: Date)
    requires IsDate(txn)
    ensures Number(DueDateOf(Net(days), txn)) == Number(txn) + (if days > 0 then days else 0)
  {}
}
