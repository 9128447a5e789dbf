/** Printing records as CSV and reading them back (section 2 of RFC 4180). */
module Csv {

  const QUOTE: char := '\"'
  const RETURN: char := '\r'
  const NEWLINE: char := '\n'

  /** A record and the line it starts on. */
  datatype Record = Record(line: nat, fields: seq<string>)

  // ---- Printing ----

  predicate NeedsQuotes(field: string) { ',' in field || QUOTE in field || NEWLINE in field }

  /** Every quote written twice. */
  function Doubled(field: string): string {
    if field == "" then ""
    else if field[0] == QUOTE then [QUOTE, QUOTE] + Doubled(field[1..])
    else [field[0]] + Doubled(field[1..])
  }

  /** `csv_field`. */
  function CsvField(field: string): string {
    if NeedsQuotes(field) then [QUOTE] + Doubled(field) + [QUOTE] else field
  }

  function Joined(fields: seq<string>): string {
    if fields == [] then ""
    else if |fields| == 1 then CsvField(fields[0])
    else CsvField(fields[0]) + "," + Joined(fields[1..])
  }

  /** The two ways a line may end. */
  predicate IsEnd(end: string) { end == [NEWLINE] || end == [RETURN, NEWLINE] }

  function Printed(rows: seq<seq<string>>, end: string): string {
    if rows == [] then "" else Joined(rows[0]) + end + Printed(rows[1..], end)
  }

  // ---- Reading ----

  /** What the reader holds between two characters: finished records, the open record and its start, the open field. */
  datatype Reader = Reader(
      records: seq<Record>, fields: seq<string>, field: string, quoted: bool, line: nat, start: nat)

  const FRESH := Reader([], [], "", false, 1, 1)

  /** One character that is not the first of a doubled quote. */
  function Took(r: Reader, c: char): Reader {
    if c == QUOTE then r.(quoted := !r.quoted)
    else if c == ',' && !r.quoted then r.(fields := r.fields + [r.field], field := "")
    else if c == RETURN && !r.quoted then r
    else if c == NEWLINE && !r.quoted then
      Reader(r.records + [Record(r.start, r.fields + [r.field])], [], "", false, r.line + 1, r.line + 1)
    else r.(field := r.field + [c], line := r.line + (if c == NEWLINE then 1 else 0))
  }

  predicate StartsDoubled(text: string, r: Reader) { |text| > 1 && r.quoted && text[0] == QUOTE && text[1] == QUOTE }

  function Read(text: string, r: Reader): Reader
    decreases |text|
  {
    if text == "" then r
    else if StartsDoubled(text, r) then Read(text[2..], r.(field := r.field + [QUOTE]))
    else Read(text[1..], Took(r, text[0]))
  }

  /** A last record needs no line end, unless it is one empty field. */
  function Closed(r: Reader): seq<Record> {
    if r.field != "" || r.fields != [] then r.records + [Record(r.start, r.fields + [r.field])] else r.records
  }

  function Split(text: string): seq<Record> { Closed(Read(text, FRESH)) }

  /** `split_csv`. */
  method SplitCsv(text: string) returns (records: seq<Record>)
    ensures records == Split(text)
  {
    records := [];
    var fields, field, inQuotes, line, start := [], "", false, 1, 1;
    var i := 0;
    while i < |text|
      invariant 0 <= i <= |text| && line >= 1 && start >= 1
      invariant Read(text, FRESH) == Read(text[i..], Reader(records, fields, field, inQuotes, line, start))
    {
      var c := text[i];
      assert text[i..][1..] == text[i + 1..];
      if c == QUOTE && inQuotes && i + 1 < |text| && text[i + 1] == QUOTE {
        assert text[i..][2..] == text[i + 2..];
        field := field + [QUOTE];
        i := i + 1;
      } else if c == QUOTE {
        inQuotes := !inQuotes;
      } else if c == ',' && !inQuotes {
        fields, field := fields + [field], "";
      } else if c == RETURN && !inQuotes {
      } else if c == NEWLINE && !inQuotes {
        fields := fields + [field];
        records := records + [Record(start, fields)];
        fields, field := [], "";
        line := line + 1;
        start := line;
      } else {
        if c == NEWLINE { line := line + 1; }
        field := field + [c];
      }
      i := i + 1;
    }
    assert text[i..] == "";
    if field != "" || fields != [] {
      fields := fields + [field];
      records := records + [Record(start, fields)];
    }
  }

  // ---- What reading undoes ----

  function WithoutReturns(field: string): string {
    if field == "" then "" else (if field[0] == RETURN then "" else [field[0]]) + WithoutReturns(field[1..])
  }

  /** What a field is read back as. */
  function ReadBack(field: string): string { if NeedsQuotes(field) then field else WithoutReturns(field) }

  function AllReadBack(fields: seq<string>): seq<string> {
    if fields == [] then [] else [ReadBack(fields[0])] + AllReadBack(fields[1..])
  }

  /** What a record is read back as: an empty one is a single empty field. */
  function RecordReadBack(fields: seq<string>): seq<string> { if fields == [] then [""] else AllReadBack(fields) }

  function Newlines(text: string): nat {
    if text == "" then 0 else (if text[0] == NEWLINE then 1 else 0) + Newlines(text[1..])
  }

  /** The records read back, each with the line its text starts on. */
  function Tagged(rows: seq<seq<string>>, end: string, line: nat): seq<Record> {
    if rows == [] then []
    else [Record(line, RecordReadBack(rows[0]))] + Tagged(rows[1..], end, line + Newlines(Joined(rows[0]) + end))
  }

  lemma {:induction false} Assoc<T>(a: seq<T>, b: seq<T>, c: seq<T>)
    ensures (a + b) + c == a + (b + c)
  {}

  lemma {:induction false} NothingBefore<T>(a: seq<T>)
    ensures [] + a == a
  {}

  lemma {:induction false} Tail<T>(a: seq<T>, b: seq<T>)
    requires a != []
    ensures (a + b)[0] == a[0] && (a + b)[1..] == a[1..] + b
  {}

  lemma {:induction false} NewlinesAdd(s: string, t: string)
    ensures Newlines(s + t) == Newlines(s) + Newlines(t)
  {
    if s == "" {
      assert s + t == t;
    } else {
      assert (s + t)[1..] == s[1..] + t;
      NewlinesAdd(s[1..], t);
    }
  }

  lemma {:induction false} NoNewlines(s: string)
    requires NEWLINE !in s
    ensures Newlines(s) == 0
  {
    if s != "" { NoNewlines(s[1..]); }
  }

  /** A plain field is read as itself, less its carriage returns. */
  lemma {:induction false} ReadPlain(field: string, rest: string, r: Reader)
    requires !NeedsQuotes(field) && !r.quoted
    ensures Read(field + rest, r) == Read(rest, r.(field := r.field + WithoutReturns(field)))
  {
    if field == "" {
      assert field + rest == rest && r.field + "" == r.field;
    } else {
      Tail(field, rest);
      var r' := Took(r, field[0]);
      assert !NeedsQuotes(field[1..]);
      ReadPlain(field[1..], rest, r');
      var head := if field[0] == RETURN then "" else [field[0]];
      assert r'.field == r.field + head;
      Assoc(r.field, head, WithoutReturns(field[1..]));
    }
  }

  /** Inside quotes, doubled quotes are read as single ones and everything else as itself, up to the closing quote. */
  lemma {:induction false} ReadQuoted(field: string, rest: string, r: Reader)
    requires r.quoted && (rest == "" || rest[0] != QUOTE)
    ensures Read(Doubled(field) + [QUOTE] + rest, r) ==
            Read(rest, r.(field := r.field + field, quoted := false, line := r.line + Newlines(field)))
  {
    var text := Doubled(field) + [QUOTE] + rest;
    if field == "" {
      assert text[1..] == rest && r.field + "" == r.field;
    } else {
      var tail := Doubled(field[1..]) + [QUOTE] + rest;
      var r' := if field[0] == QUOTE then r.(field := r.field + [QUOTE]) else Took(r, field[0]);
      if field[0] == QUOTE {
        assert text[2..] == tail;
      } else {
        assert text[1..] == tail;
      }
      ReadQuoted(field[1..], rest, r');
      assert (r.field + [field[0]]) + field[1..] == r.field + field;
    }
  }

  lemma {:induction false} DoubledNewlines(field: string)
    ensures Newlines(Doubled(field)) == Newlines(field)
  {
    if field != "" {
      DoubledNewlines(field[1..]);
      var head := if field[0] == QUOTE then [QUOTE, QUOTE] else [field[0]];
      NewlinesAdd(head, Doubled(field[1..]));
      assert head[1..] == (if field[0] == QUOTE then [QUOTE] else "");
    }
  }

  lemma {:induction false} FieldNewlines(field: string)
    ensures Newlines(CsvField(field)) == Newlines(field)
  {
    if NeedsQuotes(field) {
      DoubledNewlines(field);
      NewlinesAdd([QUOTE] + Doubled(field), [QUOTE]);
      NewlinesAdd([QUOTE], Doubled(field));
    }
  }

  // Text `t` leads from one reader to the next, whatever follows it: anything, or anything but a quote.

  predicate Unquoted(text: string) { text == "" || text[0] != QUOTE }

  ghost predicate Leads(t: string, r: Reader, r': Reader) {
    forall rest: string {:trigger Read(t + rest, r)} :: Read(t + rest, r) == Read(rest, r')
  }

  ghost predicate LeadsUnquoted(t: string, r: Reader, r': Reader) {
    forall rest: string {:trigger Read(t + rest, r)} :: Unquoted(rest) ==> Read(t + rest, r) == Read(rest, r')
  }

  lemma {:induction false} Chain(s: string, t: string, r: Reader, r': Reader, r'': Reader)
    requires Leads(s, r, r') && Leads(t, r', r'')
    ensures Leads(s + t, r, r'')
  {
    forall rest: string
      ensures Read(s + t + rest, r) == Read(rest, r'')
    {
      assert s + t + rest == s + (t + rest);
    }
  }

  lemma {:induction false} ChainUnquoted(s: string, t: string, r: Reader, r': Reader, r'': Reader)
    requires LeadsUnquoted(s, r, r') && Leads(t, r', r'') && t != "" && t[0] != QUOTE
    ensures Leads(s + t, r, r'')
  {
    forall rest: string
      ensures Read(s + t + rest, r) == Read(rest, r'')
    {
      assert s + t + rest == s + (t + rest);
      assert Unquoted(t + rest);
    }
  }

  lemma {:induction false} Opening(r: Reader)
    requires !r.quoted
    ensures Leads([QUOTE], r, r.(quoted := true))
  {
    forall rest: string
      ensures Read([QUOTE] + rest, r) == Read(rest, r.(quoted := true))
    {
      assert ([QUOTE] + rest)[1..] == rest;
    }
  }

  lemma {:induction false} Comma(r: Reader)
    requires !r.quoted
    ensures Leads(",", r, r.(fields := r.fields + [r.field], field := ""))
  {
    forall rest: string
      ensures Read("," + rest, r) == Read(rest, r.(fields := r.fields + [r.field], field := ""))
    {
      assert ("," + rest)[1..] == rest;
    }
  }

  lemma {:induction false} End(end: string, r: Reader)
    requires IsEnd(end) && !r.quoted
    ensures Leads(end, r, Took(r, NEWLINE))
  {
    forall rest: string
      ensures Read(end + rest, r) == Read(rest, Took(r, NEWLINE))
    {
      ReadEnd(end, rest, r);
    }
  }

  lemma {:induction false} ReadEnd(end: string, rest: string, r: Reader)
    requires IsEnd(end) && !r.quoted
    ensures Read(end + rest, r) == Read(rest, Took(r, NEWLINE))
  {
    var text := end + rest;
    if end == [NEWLINE] {
      assert text[1..] == rest;
    } else {
      assert text[1..] == [NEWLINE] + rest;
      assert text[1..][1..] == rest;
    }
  }

  /** The reader after a whole printed field. */
  function AfterField(field: string, r: Reader): Reader {
    r.(field := ReadBack(field), line := r.line + Newlines(CsvField(field)))
  }

  lemma {:induction false} QuotedText(field: string, rest: string)
    requires NeedsQuotes(field)
    ensures CsvField(field) + rest == [QUOTE] + (Doubled(field) + [QUOTE] + rest)
  {
    Assoc([QUOTE] + Doubled(field), [QUOTE], rest);
    Assoc([QUOTE], Doubled(field), [QUOTE] + rest);
    Assoc(Doubled(field), [QUOTE], rest);
  }

  lemma {:induction false} QuotedField(field: string, r: Reader)
    requires !r.quoted && r.field == "" && NeedsQuotes(field)
    ensures LeadsUnquoted(CsvField(field), r, AfterField(field, r))
  {
    Opening(r);
    FieldNewlines(field);
    var inside := r.(quoted := true);
    forall rest: string | Unquoted(rest)
      ensures Read(CsvField(field) + rest, r) == Read(rest, AfterField(field, r))
    {
      QuotedText(field, rest);
      ReadQuoted(field, rest, inside);
      assert inside.(field := inside.field + field, quoted := false, line := r.line + Newlines(field)) ==
          AfterField(field, r);
    }
  }

  /** A printed field is read back, and its newlines counted. */
  lemma {:induction false} Field(field: string, r: Reader)
    requires !r.quoted && r.field == ""
    ensures LeadsUnquoted(CsvField(field), r, AfterField(field, r))
  {
    if NeedsQuotes(field) {
      QuotedField(field, r);
    } else {
      NoNewlines(field);
      assert AfterField(field, r) == r.(field := r.field + WithoutReturns(field));
      forall rest: string
        ensures Read(CsvField(field) + rest, r) == Read(rest, AfterField(field, r))
      {
        ReadPlain(field, rest, r);
      }
    }
  }

  /** The reader after a whole printed record. */
  function AfterRecord(fields: seq<string>, end: string, r: Reader): Reader {
    var line := r.line + Newlines(Joined(fields) + end);
    Reader(r.records + [Record(r.start, r.fields + RecordReadBack(fields))], [], "", false, line, line)
  }

  lemma {:induction false} OneField(field: string)
    ensures RecordReadBack([field]) == [ReadBack(field)] && Joined([field]) == CsvField(field)
  {
    assert [field][1..] == [] && AllReadBack([]) == [];
    assert AllReadBack([field]) == [ReadBack(field)] + AllReadBack([field][1..]) == [ReadBack(field)];
  }

  lemma {:induction false} EndNewlines(end: string)
    requires IsEnd(end)
    ensures Newlines(end) == 1
  {
    var last := [NEWLINE];
    assert last[1..] == "" && Newlines(last) == 1;
    if end != last { assert end[1..] == last && end[0] == RETURN; }
  }

  lemma {:induction false} LastField(field: string, end: string, r: Reader)
    requires IsEnd(end) && !r.quoted && r.field == ""
    ensures Leads(CsvField(field) + end, r, AfterRecord([field], end, r))
  {
    var r' := AfterField(field, r);
    Field(field, r);
    End(end, r');
    ChainUnquoted(CsvField(field), end, r, r', Took(r', NEWLINE));
    NewlinesAdd(CsvField(field), end);
    OneField(field);
    EndNewlines(end);
    assert Took(r', NEWLINE) == AfterRecord([field], end, r);
  }

  lemma {:induction false} JoinedNewlines(fields: seq<string>, end: string)
    requires |fields| > 1
    ensures Joined(fields) + end == CsvField(fields[0]) + ("," + (Joined(fields[1..]) + end))
    ensures Newlines(Joined(fields) + end) == Newlines(CsvField(fields[0])) + Newlines(Joined(fields[1..]) + end)
  {
    var rest := Joined(fields[1..]);
    Assoc(CsvField(fields[0]), ",", rest);
    Assoc(CsvField(fields[0]), "," + rest, end);
    Assoc(",", rest, end);
    NewlinesAdd(CsvField(fields[0]), "," + (rest + end));
    Tail(",", rest + end);
    assert ","[1..] + (rest + end) == rest + end;
  }

  /** The reader after a printed field and the comma behind it. */
  function AfterComma(field: string, r: Reader): Reader {
    r.(fields := r.fields + [ReadBack(field)], field := "", line := r.line + Newlines(CsvField(field)))
  }

  lemma {:induction false} AfterFirst(fields: seq<string>, end: string, r: Reader)
    requires |fields| > 1
    ensures AfterRecord(fields[1..], end, AfterComma(fields[0], r)) == AfterRecord(fields, end, r)
  {
    JoinedNewlines(fields, end);
    assert (r.fields + [ReadBack(fields[0])]) + AllReadBack(fields[1..]) == r.fields + AllReadBack(fields);
  }

  lemma {:induction false} FieldAndComma(field: string, tail: string, r: Reader, last: Reader)
    requires !r.quoted && r.field == "" && Leads(tail, AfterComma(field, r), last)
    ensures Leads(CsvField(field) + ("," + tail), r, last)
  {
    var r' := AfterField(field, r);
    Field(field, r);
    Comma(r');
    assert r'.(fields := r'.fields + [r'.field], field := "") == AfterComma(field, r);
    Chain(",", tail, r', AfterComma(field, r), last);
    ChainUnquoted(CsvField(field), "," + tail, r, r', last);
  }

  lemma {:induction false} RecordLeads(fields: seq<string>, end: string, r: Reader)
    requires IsEnd(end) && !r.quoted && r.field == ""
    ensures Leads(Joined(fields) + end, r, AfterRecord(fields, end, r))
    decreases |fields|
  {
    if |fields| <= 1 {
      var field := if fields == [] then "" else fields[0];
      LastField(field, end, r);
      OneField(field);
      assert fields == [] || fields == [field];
    } else {
      RecordLeads(fields[1..], end, AfterComma(fields[0], r));
      FieldAndComma(fields[0], Joined(fields[1..]) + end, r, AfterRecord(fields[1..], end, AfterComma(fields[0], r)));
      AfterFirst(fields, end, r);
      JoinedNewlines(fields, end);
    }
  }

  lemma {:induction false} FirstRecord(fields: seq<string>, end: string, rest: string, r: Reader)
    requires IsEnd(end) && !r.quoted && r.field == ""
    ensures Read(Joined(fields) + end + rest, r) == Read(rest, AfterRecord(fields, end, r))
  {
    RecordLeads(fields, end, r);
  }

  lemma {:induction false} ReadTable(rows: seq<seq<string>>, end: string, r: Reader)
    requires IsEnd(end) && !r.quoted && r.field == "" && r.fields == [] && r.start == r.line
    ensures Read(Printed(rows, end), r).records == r.records + Tagged(rows, end, r.line)
    ensures Read(Printed(rows, end), r).field == "" && Read(Printed(rows, end), r).fields == []
  {
    if rows != [] {
      var r' := AfterRecord(rows[0], end, r);
      FirstRecord(rows[0], end, Printed(rows[1..], end), r);
      ReadTable(rows[1..], end, r');
      FirstTagged(rows, end, r);
    }
  }

  lemma {:induction false} FirstTagged(rows: seq<seq<string>>, end: string, r: Reader)
    requires rows != [] && r.fields == [] && r.start == r.line
    ensures var r' := AfterRecord(rows[0], end, r);
            r'.records + Tagged(rows[1..], end, r'.line) == r.records + Tagged(rows, end, r.line)
  {
    NothingBefore(RecordReadBack(rows[0]));
    Assoc(r.records, [Record(r.line, RecordReadBack(rows[0]))],
        Tagged(rows[1..], end, AfterRecord(rows[0], end, r).line));
  }

  /** Reading what was printed gives back every record, each field as it is read back, on the line its text starts. */
  lemma {:induction false} RoundTrip(rows: seq<seq<string>>, end: string)
    requires IsEnd(end)
    ensures Split(Printed(rows, end)) == Tagged(rows, end, 1)
  {
    ReadTable(rows, end, FRESH);
    assert [] + Tagged(rows, end, 1) == Tagged(rows, end, 1);
  }

  lemma {:induction false} PrefixTail<T>(s: seq<T>, k: nat)
    requires 0 < k <= |s|
    ensures s[..k][0] == s[0] && s[..k][1..] == s[1..][..k - 1]
  {}

  /** The tag of a record is one more than the newlines printed before it. */
  lemma {:induction false} TaggedAt(rows: seq<seq<string>>, end: string, line: nat, k: nat)
    requires k < |rows|
    ensures |Tagged(rows, end, line)| == |rows|
    ensures Tagged(rows, end, line)[k] == Record(line + Newlines(Printed(rows[..k], end)), RecordReadBack(rows[k]))
  {
    var line' := line + Newlines(Joined(rows[0]) + end);
    if k == 0 {
      if |rows| > 1 { TaggedAt(rows[1..], end, line', 0); }
    } else {
      TaggedAt(rows[1..], end, line', k - 1);
      PrefixTail(rows, k);
      NewlinesAdd(Joined(rows[0]) + end, Printed(rows[1..][..k - 1], end));
    }
  }

  // ---- When nothing is lost ----

  /** Quoting protects a carriage return, so only an unquoted one is lost. */
  predicate KeepsField(field: string) { RETURN !in field || NeedsQuotes(field) }

  predicate KeepsRecord(fields: seq<string>) { fields != [] && forall i :: 0 <= i < |fields| ==> KeepsField(fields[i]) }

  lemma {:induction false} WithoutReturnsKeeps(field: string)
    ensures |WithoutReturns(field)| <= |field|
    ensures WithoutReturns(field) == field <==> RETURN !in field
  {
    if field != "" {
      WithoutReturnsKeeps(field[1..]);
      if field[0] == RETURN {
        assert |WithoutReturns(field)| < |field|;
      } else {
        assert WithoutReturns(field)[1..] == WithoutReturns(field[1..]);
        assert field == [field[0]] + field[1..];
      }
    }
  }

  lemma {:induction false} AllReadBackAt(fields: seq<string>)
    ensures |AllReadBack(fields)| == |fields|
    ensures forall i :: 0 <= i < |fields| ==> AllReadBack(fields)[i] == ReadBack(fields[i])
  {
    if fields != [] {
      AllReadBackAt(fields[1..]);
      assert forall i :: 0 < i < |fields| ==> fields[i] == fields[1..][i - 1];
    }
  }

  lemma {:induction false} RecordKept(fields: seq<string>)
    ensures RecordReadBack(fields) == fields <==> KeepsRecord(fields)
  {
    AllReadBackAt(fields);
    forall i | 0 <= i < |fields|
      ensures AllReadBack(fields)[i] == fields[i] <==> KeepsField(fields[i])
    {
      WithoutReturnsKeeps(fields[i]);
    }
  }

  /** What was printed is read back unchanged, each record on its true line, exactly when no record is empty
      and no field holds a carriage return outside quotes. */
  lemma {:induction false} ExactRoundTrip(rows: seq<seq<string>>, end: string)
    requires IsEnd(end)
    ensures (forall k :: 0 <= k < |rows| ==> KeepsRecord(rows[k])) <==>
            && |Split(Printed(rows, end))| == |rows|
            && forall k :: 0 <= k < |rows| ==>
                 Split(Printed(rows, end))[k] == Record(1 + Newlines(Printed(rows[..k], end)), rows[k])
  {
    RoundTrip(rows, end);
    var back := Tagged(rows, end, 1);
    assert |back| == |rows| by { if rows != [] { TaggedAt(rows, end, 1, 0); } }
    forall k | 0 <= k < |rows|
      ensures back[k] == Record(1 + Newlines(Printed(rows[..k], end)), rows[k]) <==> KeepsRecord(rows[k])
    {
      TaggedAt(rows, end, 1, k);
      RecordKept(rows[k]);
    }
  }

  lemma {:induction false} PrintedAppend(rows: seq<seq<string>>, fields: seq<string>, end: string)
    ensures Printed(rows + [fields], end) == Printed(rows, end) + Joined(fields) + end
  {
    if rows == [] {
      assert [] + [fields] == [fields] && [fields][1..] == [];
      assert Printed([fields], end) == Joined(fields) + end + "";
    } else {
      assert (rows + [fields])[1..] == rows[1..] + [fields];
      PrintedAppend(rows[1..], fields, end);
    }
  }

  // ---- What is printed, and what need not be ----

  /** `text` is `field` with every quote written twice and nothing else changed. */
  predicate Escapes(text: string, field: string)
    decreases |field|
  {
    if field == "" then text == ""
    else if field[0] == QUOTE then
      |text| >= 2 && text[0] == QUOTE && text[1] == QUOTE && Escapes(text[2..], field[1..])
    else |text| >= 1 && text[0] == field[0] && Escapes(text[1..], field[1..])
  }

  lemma {:induction false} DoubledEscapes(field: string)
    ensures Escapes(Doubled(field), field)
  {
    if field != "" {
      DoubledEscapes(field[1..]);
      if field[0] == QUOTE {
        assert Doubled(field)[2..] == Doubled(field[1..]);
      } else {
        assert Doubled(field)[1..] == Doubled(field[1..]);
      }
    }
  }

  /** A field without comma, quote and newline is printed as it is; any other between quotes, its own written twice. */
  lemma FieldPrinted(field: string)
    ensures ',' !in field && QUOTE !in field && NEWLINE !in field ==> CsvField(field) == field
    ensures ',' in field || QUOTE in field || NEWLINE in field ==>
              var text := CsvField(field);
              |text| >= 2 && text[0] == QUOTE && text[|text| - 1] == QUOTE && Escapes(text[1..|text| - 1], field)
  {
    DoubledEscapes(field);
    if NeedsQuotes(field) { assert CsvField(field)[1..|CsvField(field)| - 1] == Doubled(field); }
  }

  /** Fields are printed with commas between them. */
  lemma {:induction false} FieldsPrinted(fields: seq<string>, field: string)
    ensures Joined([field]) == CsvField(field)
    ensures fields != [] ==> Joined(fields + [field]) == Joined(fields) + "," + CsvField(field)
    decreases |fields|
  {
    if |fields| == 1 {
      assert (fields + [field])[1..] == [field];
      Assoc(CsvField(fields[0]), ",", CsvField(field));
    } else if |fields| > 1 {
      FieldsPrinted(fields[1..], field);
      assert (fields + [field])[1..] == fields[1..] + [field];
      var head, rest := CsvField(fields[0]), Joined(fields[1..]);
      assert head + "," + (rest + "," + CsvField(field)) == head + "," + rest + "," + CsvField(field);
    }
  }

  lemma OpenQuote(text: string, r: Reader)
    requires !r.quoted
    ensures Read([QUOTE] + text, r) == Read(text, r.(quoted := true))
  {
    assert ([QUOTE] + text)[1..] == text;
  }

  /** The reader after a section between quotes. */
  function AfterSection(quoted: string, r: Reader): Reader {
    r.(field := r.field + quoted, quoted := false, line := r.line + Newlines(quoted))
  }

  /** Quotes may open and close anywhere in a field: what is between them is taken as it is. */
  lemma ReadSection(quoted: string, rest: string, section: string, r: Reader)
    requires !r.quoted && Unquoted(rest) && section == Doubled(quoted) + [QUOTE] + rest
    ensures Read([QUOTE] + section, r) == Read(rest, AfterSection(quoted, r))
  {
    OpenQuote(section, r);
    ReadQuoted(quoted, rest, r.(quoted := true));
  }

  /** The reader after a record that no line end follows. */
  function AfterJoined(fields: seq<string>, r: Reader): Reader
    requires fields != []
    decreases |fields|
  {
    if |fields| == 1 then AfterField(fields[0], r) else AfterJoined(fields[1..], AfterComma(fields[0], r))
  }

  lemma {:induction false} AfterJoinedIs(fields: seq<string>, r: Reader)
    requires fields != [] && r.field == "" && !r.quoted
    ensures var last := AfterJoined(fields, r);
            && last.records == r.records && last.start == r.start && !last.quoted
            && last.fields + [last.field] == r.fields + AllReadBack(fields)
            && (|fields| > 1 ==> last.fields != [])
    decreases |fields|
  {
    if |fields| == 1 {
      OneField(fields[0]);
      assert fields == [fields[0]];
    } else {
      var next := AfterComma(fields[0], r);
      AfterJoinedIs(fields[1..], next);
      assert next.fields == r.fields + [ReadBack(fields[0])];
      Assoc(r.fields, [ReadBack(fields[0])], AllReadBack(fields[1..]));
    }
  }

  lemma FieldThenComma(field: string, rest: string, r: Reader)
    requires !r.quoted && r.field == ""
    ensures Read(CsvField(field) + ("," + rest), r) == Read(rest, AfterComma(field, r))
  {
    var r' := AfterField(field, r);
    Field(field, r);
    assert Unquoted("," + rest);
    Comma(r');
    assert r'.(fields := r'.fields + [r'.field], field := "") == AfterComma(field, r);
  }

  lemma FieldAlone(field: string, r: Reader)
    requires !r.quoted && r.field == ""
    ensures Read(CsvField(field), r) == AfterField(field, r)
  {
    Field(field, r);
    assert CsvField(field) + "" == CsvField(field);
    assert Read(CsvField(field) + "", r) == Read("", AfterField(field, r));
  }

  lemma {:induction false} ReadJoined(fields: seq<string>, r: Reader)
    requires fields != [] && !r.quoted && r.field == ""
    ensures Read(Joined(fields), r) == AfterJoined(fields, r)
    decreases |fields|
  {
    if |fields| == 1 {
      FieldAlone(fields[0], r);
    } else {
      Assoc(CsvField(fields[0]), ",", Joined(fields[1..]));
      FieldThenComma(fields[0], Joined(fields[1..]), r);
      ReadJoined(fields[1..], AfterComma(fields[0], r));
    }
  }

  /** The reader after a whole printed table. */
  function AfterTable(rows: seq<seq<string>>, end: string, r: Reader): Reader
    decreases |rows|
  {
    if rows == [] then r else AfterTable(rows[1..], end, AfterRecord(rows[0], end, r))
  }

  lemma {:induction false} TableLeads(rows: seq<seq<string>>, end: string, rest: string, r: Reader)
    requires IsEnd(end) && !r.quoted && r.field == ""
    ensures Read(Printed(rows, end) + rest, r) == Read(rest, AfterTable(rows, end, r))
    decreases |rows|
  {
    if rows == [] {
      assert Printed(rows, end) + rest == rest;
    } else {
      FirstRecord(rows[0], end, Printed(rows[1..], end) + rest, r);
      Assoc(Joined(rows[0]) + end, Printed(rows[1..], end), rest);
      TableLeads(rows[1..], end, rest, AfterRecord(rows[0], end, r));
    }
  }

  lemma {:induction false} AfterTableIs(rows: seq<seq<string>>, end: string, r: Reader)
    requires !r.quoted && r.field == "" && r.fields == [] && r.start == r.line
    ensures var line := r.line + Newlines(Printed(rows, end));
            AfterTable(rows, end, r) == Reader(r.records + Tagged(rows, end, r.line), [], "", false, line, line)
    decreases |rows|
  {
    if rows != [] {
      AfterTableIs(rows[1..], end, AfterRecord(rows[0], end, r));
      FirstTagged(rows, end, r);
      NewlinesAdd(Joined(rows[0]) + end, Printed(rows[1..], end));
    }
  }

  lemma LastRecord(last: seq<string>, r: Reader)
    requires !r.quoted && r.field == "" && r.fields == []
    ensures Closed(Read(Joined(last), r)) ==
            r.records + (if RecordReadBack(last) == [""] then [] else [Record(r.start, RecordReadBack(last))])
  {
    if last != [] {
      ReadJoined(last, r);
      AfterJoinedIs(last, r);
      AllReadBackAt(last);
      assert r.fields + AllReadBack(last) == AllReadBack(last);
    }
  }

  /** The last record is read without its line end as with it, unless it is a single empty field: then it is lost. */
  lemma LastEndOptional(rows: seq<seq<string>>, end: string, last: seq<string>)
    requires IsEnd(end)
    ensures Split(Printed(rows, end) + Joined(last)) ==
            Tagged(rows, end, 1) +
            (if RecordReadBack(last) == [""] then []
             else [Record(1 + Newlines(Printed(rows, end)), RecordReadBack(last))])
  {
    TableLeads(rows, end, Joined(last), FRESH);
    AfterTableIs(rows, end, FRESH);
    LastRecord(last, AfterTable(rows, end, FRESH));
    assert [] + Tagged(rows, end, 1) == Tagged(rows, end, 1);
  }

  /** The line loop of `render_csv`: the header, then a line a row. */
  method Render(header: seq<string>, rows: seq<seq<string>>) returns (out: string)
    ensures out == Printed([header] + rows, [NEWLINE])
    ensures Split(out) == Tagged([header] + rows, [NEWLINE], 1)
  {
    out := Joined(header) + [NEWLINE];
    assert Printed([header], [NEWLINE]) == out by {
      PrintedAppend([], header, [NEWLINE]);
      assert [] + [header] == [header];
    }
    assert [header] + rows[..0] == [header];
    for i := 0 to |rows|
      invariant out == Printed([header] + rows[..i], [NEWLINE])
    {
      PrintedAppend([header] + rows[..i], rows[i], [NEWLINE]);
      assert [header] + rows[..i] + [rows[i]] == [header] + rows[..i + 1];
      out := out + Joined(rows[i]) + [NEWLINE];
    }
    assert rows[..|rows|] == rows;
    RoundTrip([header] + rows, [NEWLINE]);
  }
}
