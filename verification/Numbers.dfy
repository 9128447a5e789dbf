/** Document numbers: a sequence for each document type that skips what is taken. */
module Numbers {
  import opened Wrappers
  import opened Documents

  const FIRST_NUMBER: nat := 1001

  // ---- Decimal text ----

  function Digit(d: nat): (c: char)
    requires d < 10
    ensures '0' <= c <= '9'
  {
    '0' + d as char
  }

  function Decimal(n: nat): (s: string)
    ensures s != [] && IsNumeric(s)
  {
    if n < 10 then [Digit(n)] else Decimal(n / 10) + [Digit(n % 10)]
  }

  /** Digits only, and at least one (`GLOB '*[^0-9]*'` refused). */
  predicate IsNumeric(s: string) { s != [] && forall i :: 0 <= i < |s| ==> '0' <= s[i] <= '9' }

  function ValueTo(s: string, n: nat): nat
    requires n <= |s| && forall i :: 0 <= i < |s| ==> '0' <= s[i] <= '9'
  {
    if n == 0 then 0 else 10 * ValueTo(s, n - 1) + (s[n - 1] as int - '0' as int)
  }

  function Value(s: string): nat
    requires IsNumeric(s)
  {
    ValueTo(s, |s|)
  }

  lemma {:induction false} ValueToPrefix(s: string, c: char, n: nat)
    requires n <= |s| && '0' <= c <= '9' && forall i :: 0 <= i < |s| ==> '0' <= s[i] <= '9'
    ensures ValueTo(s + [c], n) == ValueTo(s, n)
  {
    if n > 0 { ValueToPrefix(s, c, n - 1); }
  }

  /** Reading a printed number gives it back, so different numbers print differently. */
  lemma {:induction false} ValueOfDecimal(n: nat)
    ensures Value(Decimal(n)) == n
  {
    if n < 10 {
      assert ValueTo(Decimal(n), 0) == 0;
    } else {
      ValueOfDecimal(n / 10);
      ValueToPrefix(Decimal(n / 10), Digit(n % 10), |Decimal(n / 10)|);
    }
  }

  // ---- Saved numbers ----

  /** A saved version of a document, in the order they were saved. */
  datatype Row = Row(id: string, kind: DocKind, number: Option<string>)

  predicate IsNewest(rows: seq<Row>, i: nat) {
    i < |rows| && forall j :: i < j < |rows| ==> rows[j].id != rows[i].id
  }

  predicate Holds(rows: seq<Row>, kind: DocKind, number: string, i: nat) {
    IsNewest(rows, i) && rows[i].kind == kind && rows[i].number == Some(number)
  }

  /** The newest version of some document of the type holds the number. */
  predicate IsHeld(rows: seq<Row>, kind: DocKind, number: string) {
    exists i: nat :: i < |rows| && Holds(rows, kind, number, i)
  }

  /** `number_owner`. */
  method NumberOwner(rows: seq<Row>, kind: DocKind, number: string) returns (owner: Option<string>)
    ensures owner.Some? <==> IsHeld(rows, kind, number)
  {
    for i := 0 to |rows|
      invariant forall j: nat :: j < i ==> !Holds(rows, kind, number, j)
    {
      var newest := true;
      for j := i + 1 to |rows|
        invariant newest <==> forall m :: i < m < j ==> rows[m].id != rows[i].id
      {
        if rows[j].id == rows[i].id { newest := false; }
      }
      if newest && rows[i].kind == kind && rows[i].number == Some(number) {
        assert Holds(rows, kind, number, i);
        return Some(rows[i].id);
      }
    }
    owner := None;
  }

  predicate Counts(row: Row, kind: DocKind) { row.kind == kind && row.number.Some? && IsNumeric(row.number.value) }

  /** One past the highest numeric number among the first `n` versions of the type, or the first number. */
  function SavedNext(rows: seq<Row>, kind: DocKind, n: nat): nat
    requires n <= |rows|
  {
    if n == 0 then 0
    else if Counts(rows[n - 1], kind) && Value(rows[n - 1].number.value) >= SavedNext(rows, kind, n - 1) then
      Value(rows[n - 1].number.value) + 1
    else SavedNext(rows, kind, n - 1)
  }

  /** Where a sequence with nothing stored starts. */
  function Seed(rows: seq<Row>, kind: DocKind): nat {
    if SavedNext(rows, kind, |rows|) == 0 then FIRST_NUMBER else SavedNext(rows, kind, |rows|)
  }

  method ComputeSeed(rows: seq<Row>, kind: DocKind) returns (next: nat)
    ensures next == Seed(rows, kind)
  {
    var highest: Option<nat> := None;
    for i := 0 to |rows|
      invariant highest.None? ==> SavedNext(rows, kind, i) == 0
      invariant highest.Some? ==> SavedNext(rows, kind, i) == highest.value + 1
    {
      if Counts(rows[i], kind) {
        var v := Value(rows[i].number.value);
        if highest.None? || v > highest.value { highest := Some(v); }
      }
    }
    next := if highest.Some? then highest.value + 1 else FIRST_NUMBER;
  }

  /** No number of the type is at or past the seed. */
  lemma {:induction false} BelowSeed(rows: seq<Row>, kind: DocKind, i: nat, n: nat)
    requires i < n <= |rows| && Counts(rows[i], kind)
    ensures Value(rows[i].number.value) < SavedNext(rows, kind, n)
  {
    if i < n - 1 { BelowSeed(rows, kind, i, n - 1); }
  }

  lemma HeldBelow(rows: seq<Row>, kind: DocKind, n: nat)
    requires IsHeld(rows, kind, Decimal(n))
    ensures n < SavedNext(rows, kind, |rows|) <= Seed(rows, kind)
  {
    var i: nat :| i < |rows| && Holds(rows, kind, Decimal(n), i);
    ValueOfDecimal(n);
    BelowSeed(rows, kind, i, |rows|);
  }

  /** What saving one more version makes of it. */
  lemma SavedNextAfter(rows: seq<Row>, row: Row, kind: DocKind)
    ensures SavedNext(rows + [row], kind, |rows| + 1)
         == if Counts(row, kind) && Value(row.number.value) >= SavedNext(rows, kind, |rows|)
            then Value(row.number.value) + 1 else SavedNext(rows, kind, |rows|)
  {
    SavedNextGrows(rows, row, kind, |rows|);
  }

  lemma {:induction false} SavedNextGrows(rows: seq<Row>, row: Row, kind: DocKind, n: nat)
    requires n <= |rows|
    ensures SavedNext(rows + [row], kind, n) == SavedNext(rows, kind, n)
  {
    if n > 0 { SavedNextGrows(rows, row, kind, n - 1); }
  }

  /** The skipping loop. It ends because no saved number is at or past the seed. */
  method FirstFree(rows: seq<Row>, kind: DocKind, from: nat) returns (candidate: nat)
    ensures from <= candidate && !IsHeld(rows, kind, Decimal(candidate))
    ensures forall n: nat :: from <= n < candidate ==> IsHeld(rows, kind, Decimal(n))
  {
    candidate := from;
    var owner := NumberOwner(rows, kind, Decimal(candidate));
    while owner.Some?
      invariant from <= candidate && (owner.Some? <==> IsHeld(rows, kind, Decimal(candidate)))
      invariant forall n: nat :: from <= n < candidate ==> IsHeld(rows, kind, Decimal(n))
      decreases if owner.Some? then Seed(rows, kind) - candidate + 1 else 0
    {
      HeldBelow(rows, kind, candidate);
      candidate := candidate + 1;
      owner := NumberOwner(rows, kind, Decimal(candidate));
      if owner.Some? { HeldBelow(rows, kind, candidate); }
    }
  }

  class Sequences {
    /** Every version ever saved. */
    var rows: seq<Row>
    /** `doc_sequences`: the next number of each type that has one stored. */
    var next: map<DocKind, nat>
    /** The last number handed out for each type. */
    ghost var issued: map<DocKind, nat>

    ghost predicate Valid()
      reads this
    {
      forall kind :: kind in issued ==> kind in next && issued[kind] < next[kind]
    }

    constructor ()
      ensures Valid() && rows == [] && next == map[] && issued == map[]
    {
      rows, next, issued := [], map[], map[];
    }

    /** Below this no number is handed out any more. */
    function Floor(kind: DocKind): nat
      reads this
    {
      if kind in next then next[kind] else 0
    }

    /** Saving a version of a document, whatever its number. */
    method Save(row: Row)
      requires Valid()
      modifies this
      ensures Valid() && rows == old(rows) + [row] && next == old(next) && issued == old(issued)
    {
      rows := rows + [row];
    }

    /** `next_number`: strictly past every number handed out for the type before, held by no saved
        document, and the first free one from where the sequence stood. */
    method NextNumber(kind: DocKind) returns (number: string)
      requires Valid()
      modifies this
      ensures Valid() && rows == old(rows) && kind in issued && number == Decimal(issued[kind])
      ensures issued == old(issued)[kind := issued[kind]] && next == old(next)[kind := issued[kind] + 1]
      ensures kind in old(issued) ==> old(issued)[kind] < issued[kind]
      ensures !IsHeld(rows, kind, number)
      ensures var from := if kind in old(next) then old(next)[kind] else Seed(rows, kind);
        from <= issued[kind] && forall n: nat :: from <= n < issued[kind] ==> IsHeld(rows, kind, Decimal(n))
      ensures forall k :: Floor(k) >= old(Floor(k))
    {
      var from;
      if kind in next { from := next[kind]; } else { from := ComputeSeed(rows, kind); }
      var candidate := FirstFree(rows, kind, from);
      next := next[kind := candidate + 1];
      issued := issued[kind := candidate];
      number := Decimal(candidate);
    }

    /** `ensure_next_number`: never lowers where the sequence stands. */
    method EnsureNext(kind: DocKind, atLeast: int) returns (result: nat)
      requires Valid()
      modifies this
      ensures Valid() && rows == old(rows) && issued == old(issued) && next == old(next)[kind := result]
      ensures result >= atLeast && result >= Seed(rows, kind) && result >= old(Floor(kind))
      ensures result == atLeast || result == Seed(rows, kind) || result == old(Floor(kind))
      ensures forall k :: Floor(k) >= old(Floor(k))
    {
      var saved := ComputeSeed(rows, kind);
      result := if kind in next then next[kind] else saved;
      if result < saved { result := saved; }
      if result < atLeast { result := atLeast; }
      next := next[kind := result];
    }

    /** Any run of saves, allocations and raised floors: `seen` tells how many versions were saved when each
        number was issued, and none of those that were newest held it. */
    method Run(steps: seq<Step>) returns (numbers: seq<Issue>, ghost seen: seq<nat>)
      requires Valid()
      modifies this
      ensures Valid() && old(rows) <= rows && Unheld(rows, numbers, seen)
      ensures Rising(numbers) && Above(numbers, old(issued))
      ensures forall k :: Floor(k) >= old(Floor(k))
    {
      numbers, seen := [], [];
      for i := 0 to |steps|
        invariant Valid() && old(rows) <= rows && Unheld(rows, numbers, seen)
        invariant InOrder(numbers, old(issued), issued)
        invariant forall k :: Floor(k) >= old(Floor(k))
      {
        ghost var had := issued;
        match steps[i] {
          case SaveStep(row) =>
            UnheldSaved(rows, row, numbers, seen);
            Save(row);
          case NextStep(kind) =>
            var number := NextNumber(kind);
            ValueOfDecimal(issued[kind]);
            UnheldIssued(rows, numbers, seen, Issue(kind, Value(number)));
            InOrderNext(numbers, old(issued), had, issued, kind);
            numbers, seen := numbers + [Issue(kind, Value(number))], seen + [|rows|];
          case EnsureStep(kind, atLeast) =>
            var _ := EnsureNext(kind, atLeast);
        }
      }
    }
  }

  datatype Issue = Issue(kind: DocKind, number: nat)

  predicate UpTo(numbers: seq<Issue>, issued: map<DocKind, nat>) {
    forall a :: 0 <= a < |numbers| ==> numbers[a].kind in issued && numbers[a].number <= issued[numbers[a].kind]
  }

  predicate Rising(numbers: seq<Issue>) {
    forall a, b :: 0 <= a < b < |numbers| && numbers[a].kind == numbers[b].kind ==>
        numbers[a].number < numbers[b].number
  }

  /** Every number is past the last one of its type issued before. */
  predicate Above(numbers: seq<Issue>, before: map<DocKind, nat>) {
    forall a :: 0 <= a < |numbers| && numbers[a].kind in before ==> before[numbers[a].kind] < numbers[a].number
  }

  ghost predicate InOrder(numbers: seq<Issue>, before: map<DocKind, nat>, issued: map<DocKind, nat>) {
    && UpTo(numbers, issued) && Rising(numbers) && Above(numbers, before)
    && forall k :: k in before ==> k in issued && before[k] <= issued[k]
  }

  lemma InOrderNext(numbers: seq<Issue>, before: map<DocKind, nat>, had: map<DocKind, nat>, issued: map<DocKind, nat>,
                    kind: DocKind)
    requires InOrder(numbers, before, had) && kind in issued && issued == had[kind := issued[kind]]
    requires kind in had ==> had[kind] < issued[kind]
    ensures InOrder(numbers + [Issue(kind, issued[kind])], before, issued)
  {}

  /** No newest version among those saved when a number was issued held it. */
  ghost predicate Unheld(rows: seq<Row>, numbers: seq<Issue>, seen: seq<nat>) {
    && |seen| == |numbers|
    && forall a :: 0 <= a < |numbers| ==>
         seen[a] <= |rows| && !IsHeld(rows[..seen[a]], numbers[a].kind, Decimal(numbers[a].number))
  }

  lemma {:induction false} UnheldSaved(rows: seq<Row>, row: Row, numbers: seq<Issue>, seen: seq<nat>)
    requires Unheld(rows, numbers, seen)
    ensures Unheld(rows + [row], numbers, seen)
  {
    forall a | 0 <= a < |numbers|
      ensures seen[a] <= |rows| + 1 && !IsHeld((rows + [row])[..seen[a]], numbers[a].kind, Decimal(numbers[a].number))
    {
      assert (rows + [row])[..seen[a]] == rows[..seen[a]];
    }
  }

  lemma {:induction false} UnheldIssued(rows: seq<Row>, numbers: seq<Issue>, seen: seq<nat>, issue: Issue)
    requires Unheld(rows, numbers, seen) && !IsHeld(rows, issue.kind, Decimal(issue.number))
    ensures Unheld(rows, numbers + [issue], seen + [|rows|])
  {
    assert rows[..|rows|] == rows;
  }

  datatype Step = SaveStep(row: Row) | NextStep(kind: DocKind) | EnsureStep(kind: DocKind, atLeast: int)

  /** Saving a document puts the start of a fresh sequence past its number, and lowers it exactly when the document
      is the first to be numbered and its number is below the one before the first. */
  lemma SeedGrows(rows: seq<Row>, row: Row, kind: DocKind)
    ensures Counts(row, kind) ==> Value(row.number.value) < Seed(rows + [row], kind)
    ensures Seed(rows + [row], kind) < Seed(rows, kind) <==>
            SavedNext(rows, kind, |rows|) == 0 && Counts(row, kind) && Value(row.number.value) < FIRST_NUMBER - 1
  {
    SavedNextAfter(rows, row, kind);
  }

  /** A first invoice numbered 5 takes the start from 1001 to 6. */
  lemma SeedFalls()
    ensures Seed([], Invoice) == 1001 && Seed([Row("a", Invoice, Some("5"))], Invoice) == 6
  {
    assert ValueTo("5", 0) == 0 && Value("5") == 5;
    assert SavedNext([Row("a", Invoice, Some("5"))], Invoice, 0) == 0;
  }
}
