/** Finding listed names in a text, leftmost and longest first, and putting fakes in their place. */
module Matcher {
  import opened Wrappers
  import opened Names

  const WHOLE_WORD_MAX: nat := 7

  /** The character tests the matcher asks of the language's library. */
  datatype Letters = Letters(isLetter: char -> bool, isAlnum: char -> bool, isSpace: char -> bool)

  predicate IsTextual(letters: Letters, name: string) { exists i: nat :: i < |name| && letters.isLetter(name[i]) }

  function LeadingSpace(letters: Letters, name: string, n: nat): (count: nat)
    requires n <= |name|
    ensures count <= |name| - n
    decreases |name| - n
  {
    if n < |name| && letters.isSpace(name[n]) then 1 + LeadingSpace(letters, name, n + 1) else 0
  }

  function TrailingSpace(letters: Letters, name: string, n: nat): (count: nat)
    requires n <= |name|
    ensures count <= n
  {
    if n > 0 && letters.isSpace(name[n - 1]) then 1 + TrailingSpace(letters, name, n - 1) else 0
  }

  /** The length once spaces at the ends are stripped. */
  function StrippedLength(letters: Letters, name: string): int {
    var lead := LeadingSpace(letters, name, 0);
    if lead == |name| then 0 else |name| - lead - TrailingSpace(letters, name, |name|)
  }

  predicate StartsWith(text: string, name: string, i: nat) {
    i + |name| <= |text| && text[i..i + |name|] == name
  }

  /** A short name counts only between word boundaries (`_bounded`). */
  predicate IsBounded(letters: Letters, text: string, start: nat, name: string)
    requires name != "" && StartsWith(text, name, start)
  {
    || StrippedLength(letters, name) > WHOLE_WORD_MAX
    || var end := start + |name|;
       && (start == 0 || !letters.isAlnum(text[start - 1]) || !letters.isAlnum(name[0]))
       && (end == |text| || !letters.isAlnum(text[end]) || !letters.isAlnum(name[|name| - 1]))
  }

  /** A bounded occurrence of a name. */
  predicate Occurs(letters: Letters, text: string, name: string, i: nat) {
    name != "" && StartsWith(text, name, i) && IsBounded(letters, text, i, name)
  }

  /** The name without the spaces at its ends is what stands between `a` and `z`. */
  predicate IsStripped(letters: Letters, name: string, a: nat, z: nat) {
    && a <= z <= |name|
    && (forall i :: 0 <= i < a ==> letters.isSpace(name[i]))
    && (forall i :: z <= i < |name| ==> letters.isSpace(name[i]))
    && (a < z ==> !letters.isSpace(name[a]) && !letters.isSpace(name[z - 1]))
  }

  lemma {:induction false} LeadingIs(letters: Letters, name: string, n: nat, a: nat)
    requires n <= a <= |name| && forall i :: n <= i < a ==> letters.isSpace(name[i])
    requires a < |name| ==> !letters.isSpace(name[a])
    ensures LeadingSpace(letters, name, n) == a - n
    decreases a - n
  {
    if n < a { LeadingIs(letters, name, n + 1, a); }
  }

  lemma {:induction false} TrailingIs(letters: Letters, name: string, n: nat, z: nat)
    requires z <= n <= |name| && forall i :: z <= i < n ==> letters.isSpace(name[i])
    requires z > 0 ==> !letters.isSpace(name[z - 1])
    ensures TrailingSpace(letters, name, n) == n - z
    decreases n - z
  {
    if z < n { TrailingIs(letters, name, n - 1, z); }
  }

  /** Spaces at the ends do not count, and nothing else is left out. */
  lemma StrippedTells(letters: Letters, name: string, a: nat, z: nat)
    requires IsStripped(letters, name, a, z)
    ensures StrippedLength(letters, name) == z - a
  {
    if a < z {
      LeadingIs(letters, name, 0, a);
      TrailingIs(letters, name, |name|, z);
    } else {
      LeadingIs(letters, name, 0, |name|);
    }
  }

  /** A name occurs where the text has it, character by character; one of at most seven characters between its spaces
      only where no letter or digit of the text touches a letter or digit at its ends. */
  lemma OccursTells(letters: Letters, text: string, name: string, i: nat, a: nat, z: nat)
    requires IsStripped(letters, name, a, z)
    ensures Occurs(letters, text, name, i) <==>
            && name != "" && i + |name| <= |text| && (forall k :: i <= k < i + |name| ==> text[k] == name[k - i])
            && (z - a <= 7 ==>
                  && !(i > 0 && letters.isAlnum(text[i - 1]) && letters.isAlnum(name[0]))
                  && !(i + |name| < |text| && letters.isAlnum(text[i + |name|]) && letters.isAlnum(name[|name| - 1])))
  {
    StrippedTells(letters, name, a, z);
    if i + |name| <= |text| {
      var part := text[i..i + |name|];
      assert forall k :: 0 <= k < |name| ==> part[k] == text[k + i];
      assert forall k :: i <= k < i + |name| ==> text[k] == part[k - i];
    }
  }

  datatype Hit = Hit(start: nat, end: nat, name: string)

  predicate Covers(hit: Hit, i: int) { hit.start <= i < hit.end }

  /** No hit covers the place. */
  predicate Missed(hits: seq<Hit>, i: int) { forall h :: 0 <= h < |hits| ==> !Covers(hits[h], i) }

  predicate SameTo(a: seq<Hit>, b: seq<Hit>, n: nat) { n <= |a| && n <= |b| && forall h :: 0 <= h < n ==> a[h] == b[h] }

  lemma SameToNext(a: seq<Hit>, b: seq<Hit>, n: nat)
    requires SameTo(a, b, n) && n < |a| && n < |b| && a[n] == b[n]
    ensures SameTo(a, b, n + 1)
  {}

  ghost predicate InOrder(hits: seq<Hit>, length: nat) {
    && (forall h :: 0 <= h < |hits| ==> hits[h].start <= hits[h].end <= length)
    && (forall g, h :: 0 <= g < h < |hits| ==> hits[g].end <= hits[h].start)
  }

  // ---- The index by first character ----

  /** Longer names before shorter ones. */
  predicate LongestFirst(bucket: seq<string>) { forall i, j :: 0 <= i < j < |bucket| ==> |bucket[i]| >= |bucket[j]| }

  ghost predicate IsIndex(letters: Letters, listed: set<string>, byFirst: map<char, seq<string>>) {
    && (forall c :: c in byFirst ==> LongestFirst(byFirst[c]))
    && (forall c, name :: c in byFirst && name in byFirst[c] ==>
        name in listed && name != "" && name[0] == c && IsTextual(letters, name))
    && (forall name :: name in listed && name != "" && IsTextual(letters, name) ==>
        name[0] in byFirst && name in byFirst[name[0]])
  }

  /** One name into its place in a bucket. */
  method Insert(bucket: seq<string>, name: string) returns (more: seq<string>)
    requires LongestFirst(bucket)
    ensures LongestFirst(more) && forall n :: n in more <==> n in bucket || n == name
  {
    var i := 0;
    while i < |bucket| && |bucket[i]| >= |name|
      invariant 0 <= i <= |bucket| && forall j :: 0 <= j < i ==> |bucket[j]| >= |name|
    {
      i := i + 1;
    }
    forall j | i <= j < |bucket| ensures |bucket[j]| < |name| {}
    more := bucket[..i] + [name] + bucket[i..];
    assert bucket == bucket[..i] + bucket[i..];
    Inserted(bucket[..i], name, bucket[i..]);
  }

  lemma {:induction false} Inserted(longer: seq<string>, name: string, shorter: seq<string>)
    requires LongestFirst(longer) && LongestFirst(shorter)
    requires (forall n :: n in longer ==> |n| >= |name|) && (forall n :: n in shorter ==> |n| < |name|)
    ensures LongestFirst(longer + [name] + shorter)
    ensures forall n :: n in longer + [name] + shorter <==> n in longer + shorter || n == name
  {
    forall i, j | 0 <= i < j < |longer| + 1 + |shorter|
      ensures |(longer + [name] + shorter)[i]| >= |(longer + [name] + shorter)[j]|
    {
      if i < |longer| { assert longer[i] in longer; }
      if j > |longer| { assert shorter[j - |longer| - 1] in shorter; }
    }
  }

  method FindLetter(letters: Letters, name: string) returns (found: bool)
    ensures found <==> IsTextual(letters, name)
  {
    for i := 0 to |name|
      invariant forall j: nat :: j < i ==> !letters.isLetter(name[j])
    {
      if letters.isLetter(name[i]) { return true; }
    }
    found := false;
  }

  /** One name into the index. */
  method AddName(letters: Letters, ghost listed: set<string>, index: map<char, seq<string>>, name: string)
      returns (more: map<char, seq<string>>)
    requires IsIndex(letters, listed, index)
    ensures IsIndex(letters, listed + {name}, more)
  {
    var textual := FindLetter(letters, name);
    more := index;
    if name != "" && textual {
      var was := if name[0] in index then index[name[0]] else [];
      var bucket := Insert(was, name);
      AddedName(letters, listed, index, name, was, bucket);
      more := index[name[0] := bucket];
    }
  }

  lemma AddedName(letters: Letters, listed: set<string>, index: map<char, seq<string>>, name: string, was: seq<string>,
                  bucket: seq<string>)
    requires IsIndex(letters, listed, index) && name != "" && IsTextual(letters, name)
    requires was == if name[0] in index then index[name[0]] else []
    requires LongestFirst(bucket) && forall n :: n in bucket <==> n in was || n == name
    ensures IsIndex(letters, listed + {name}, index[name[0] := bucket])
  {
    var more := index[name[0] := bucket];
    forall n | n in listed + {name} && n != "" && IsTextual(letters, n) ensures n[0] in more && n in more[n[0]] {
      assert n != name ==> n[0] in index && n in index[n[0]];
    }
  }

  class NameMatcher {
    const letters: Letters
    const listed: set<string>
    const byFirst: map<char, seq<string>>

    ghost predicate Valid() { IsIndex(letters, listed, byFirst) }

    /** A name the matcher looks for. */
    predicate Sought(name: string) { name in listed && name != "" && IsTextual(letters, name) }

    constructor (letters: Letters, names: set<string>)
      ensures Valid() && this.letters == letters && listed == names
    {
      var index: map<char, seq<string>> := map[];
      var todo := names;
      while todo != {}
        invariant todo <= names && IsIndex(letters, names - todo, index)
        decreases todo
      {
        var name :| name in todo;
        index := AddName(letters, names - todo, index, name);
        assert (names - todo) + {name} == names - (todo - {name});
        todo := todo - {name};
      }
      assert names - {} == names;
      this.letters, listed, byFirst := letters, names, index;
    }

    /** The first name of a bucket, so the longest, with a bounded occurrence at a place. */
    method FirstInBucket(bucket: seq<string>, text: string, i: nat) returns (hit: Option<string>)
      requires i < |text| && LongestFirst(bucket)
      ensures hit.Some? ==> hit.value in bucket && Occurs(letters, text, hit.value, i)
      ensures hit.Some? ==> forall name :: name in bucket && Occurs(letters, text, name, i) ==> |name| <= |hit.value|
      ensures hit.None? ==> forall name :: name in bucket ==> !Occurs(letters, text, name, i)
    {
      for j := 0 to |bucket|
        invariant forall m :: 0 <= m < j ==> !Occurs(letters, text, bucket[m], i)
      {
        if bucket[j] != "" && StartsWith(text, bucket[j], i) && IsBounded(letters, text, i, bucket[j]) {
          return Some(bucket[j]);
        }
      }
      hit := None;
    }

    /** The longest listed name with a bounded occurrence at a place. */
    method FindAt(text: string, i: nat) returns (hit: Option<string>)
      requires Valid() && i < |text|
      ensures hit.Some? ==> IsHit(text, Hit(i, i + |hit.value|, hit.value))
      ensures hit.None? ==> NothingAt(text, i)
    {
      hit := None;
      if text[i] in byFirst { hit := FirstInBucket(byFirst[text[i]], text, i); }
      forall name | Sought(name) && Occurs(letters, text, name, i)
        ensures text[i] in byFirst && name in byFirst[text[i]]
      {
        InBucket(text, name, i);
      }
    }

    lemma InBucket(text: string, name: string, i: nat)
      requires Valid() && i < |text| && Sought(name) && Occurs(letters, text, name, i)
      ensures text[i] in byFirst && name in byFirst[text[i]]
    {
      assert text[i..i + |name|][0] == text[i];
    }

    ghost predicate NothingAt(text: string, i: nat) { forall name :: Sought(name) ==> !Occurs(letters, text, name, i) }

    /** No name occurring there is longer. */
    ghost predicate NoneLonger(text: string, i: nat, length: nat) {
      forall name :: Sought(name) && Occurs(letters, text, name, i) ==> |name| <= length
    }

    /** A bounded occurrence of a listed name, with no longer one at its start. */
    ghost predicate IsHit(text: string, hit: Hit) {
      && hit.start < hit.end <= |text| && text[hit.start..hit.end] == hit.name
      && Sought(hit.name) && Occurs(letters, text, hit.name, hit.start)
      && NoneLonger(text, hit.start, |hit.name|)
    }

    /** The hits so far are hits, in order and apart, and no name occurs at a place among the first
        `n` that they do not cover. */
    ghost predicate Found(text: string, hits: seq<Hit>, n: nat) {
      && (forall h {:trigger IsHit(text, hits[h])} :: 0 <= h < |hits| ==> IsHit(text, hits[h]))
      && (forall h :: 0 <= h < |hits| ==> hits[h].start < hits[h].end <= n)
      && (forall g, h :: 0 <= g < h < |hits| ==> hits[g].end <= hits[h].start)
      && (forall i: nat {:trigger Missed(hits, i)} :: i < n && Missed(hits, i) ==> NothingAt(text, i))
    }

    /** `find`. */
    method Find(text: string) returns (hits: seq<Hit>)
      requires Valid()
      ensures Found(text, hits, |text|) && InOrder(hits, |text|)
    {
      hits := [];
      var i := 0;
      while i < |text|
        invariant 0 <= i <= |text| && Found(text, hits, i)
      {
        hits, i := FindNext(text, hits, i);
      }
      FoundInOrder(text, hits, i);
    }

    /** One place of the text: past a hit, or past its first character. */
    method FindNext(text: string, hits: seq<Hit>, i: nat) returns (more: seq<Hit>, next: nat)
      requires Valid() && i < |text| && Found(text, hits, i)
      ensures i < next <= |text| && Found(text, more, next)
    {
      var hit := FindAt(text, i);
      if hit.None? {
        FoundMiss(text, hits, i);
        return hits, i + 1;
      }
      var found := Hit(i, i + |hit.value|, hit.value);
      FoundHit(text, hits, i, found);
      return hits + [found], found.end;
    }

    lemma {:induction false} FoundInOrder(text: string, hits: seq<Hit>, n: nat)
      requires Found(text, hits, n) && n <= |text|
      ensures InOrder(hits, |text|)
    {}

    /** A name occurs at a place only if some hit covers it. */
    lemma OccursCovered(text: string, a: seq<Hit>, p: nat, name: string)
      requires Found(text, a, |text|) && p < |text| && Sought(name) && Occurs(letters, text, name, p)
      ensures !Missed(a, p)
    {}

    /** After the same first hits, neither of two answers starts its next hit before the other. */
    lemma NoneBefore(text: string, a: seq<Hit>, b: seq<Hit>, h: nat)
      requires Found(text, a, |text|) && Found(text, b, |text|) && h < |b| && SameTo(a, b, h)
      ensures h < |a| && a[h].start <= b[h].start
    {
      var p := b[h].start;
      assert IsHit(text, b[h]);
      OccursCovered(text, a, p, b[h].name);
      var g :| 0 <= g < |a| && Covers(a[g], p);
      assert h < g ==> a[h].end <= a[g].start;
      assert IsHit(text, a[h]);
    }

    lemma SameHit(text: string, a: Hit, b: Hit)
      requires IsHit(text, a) && IsHit(text, b) && a.start == b.start
      ensures a == b
    {}

    lemma SameNext(text: string, a: seq<Hit>, b: seq<Hit>, h: nat)
      requires Found(text, a, |text|) && Found(text, b, |text|) && h < |a| && SameTo(a, b, h)
      ensures h < |b| && a[h] == b[h]
    {
      NoneBefore(text, b, a, h);
      NoneBefore(text, a, b, h);
      assert IsHit(text, a[h]) && IsHit(text, b[h]);
      SameHit(text, a[h], b[h]);
    }

    lemma {:induction false} SameUpTo(text: string, a: seq<Hit>, b: seq<Hit>, h: nat)
      requires Found(text, a, |text|) && Found(text, b, |text|) && h <= |a|
      ensures SameTo(a, b, h)
    {
      if h > 0 {
        SameUpTo(text, a, b, h - 1);
        SameNext(text, a, b, h - 1);
        SameToNext(a, b, h - 1);
      }
    }

    /** What `Found` says leaves no choice: it has one answer for every text. */
    lemma OneAnswer(text: string, a: seq<Hit>, b: seq<Hit>)
      requires Found(text, a, |text|) && Found(text, b, |text|)
      ensures a == b
    {
      SameUpTo(text, a, b, |a|);
      SameUpTo(text, b, a, |b|);
    }

    lemma {:induction false} FoundMiss(text: string, hits: seq<Hit>, n: nat)
      requires Found(text, hits, n) && n < |text| && NothingAt(text, n)
      ensures Found(text, hits, n + 1)
    {}

    lemma {:induction false} FoundHit(text: string, hits: seq<Hit>, n: nat, hit: Hit)
      requires Found(text, hits, n) && n < |text| && IsHit(text, hit) && hit.start == n
      ensures Found(text, hits + [hit], hit.end)
    {
      var all := hits + [hit];
      forall i: nat | i < hit.end && Missed(all, i) ensures NothingAt(text, i) {
        assert all[|hits|] == hit && !Covers(all[|hits|], i);
        forall h | 0 <= h < |hits| ensures !Covers(hits[h], i) { assert all[h] == hits[h]; }
        assert Missed(hits, i);
      }
    }
  }

  // ---- Replacing ----

  /** Where the text has been dealt with after `n` hits. */
  function Dealt(hits: seq<Hit>, n: nat): nat
    requires n <= |hits|
  {
    if n == 0 then 0 else hits[n - 1].end
  }

  /** The text up to the `n`-th hit with every span before replaced. */
  function Replaced(text: string, hits: seq<Hit>, fakes: map<string, string>, n: nat): string
    requires n <= |hits| && InOrder(hits, |text|) && NamesFaked(hits, fakes, n)
  {
    if n == 0 then ""
    else Replaced(text, hits, fakes, n - 1) + text[Dealt(hits, n - 1)..hits[n - 1].start] + fakes[hits[n - 1].name]
  }

  function ReplacedText(text: string, hits: seq<Hit>, fakes: map<string, string>): string
    requires InOrder(hits, |text|) && NamesFaked(hits, fakes, |hits|)
  {
    Replaced(text, hits, fakes, |hits|) + text[Dealt(hits, |hits|)..]
  }

  lemma {:induction false} ReplacedAgree(text: string, hits: seq<Hit>, fakes: map<string, string>, more: map<string,
                                         string>, n: nat)
    requires n <= |hits| && InOrder(hits, |text|) && NamesFaked(hits, fakes, n)
    requires forall a :: a in fakes ==> a in more && more[a] == fakes[a]
    ensures Replaced(text, hits, more, n) == Replaced(text, hits, fakes, n)
  {
    if n > 0 { ReplacedAgree(text, hits, fakes, more, n - 1); }
  }

  /** `replace_names`: the text with exactly the spans found replaced, each by its name's fake. */
  method ReplaceNames(matcher: NameMatcher, mapper: NameMapper, text: string)
      returns (out: string, ghost hits: seq<Hit>)
    requires matcher.Valid() && mapper.Valid()
    modifies mapper
    ensures mapper.Valid() && matcher.Found(text, hits, |text|) && InOrder(hits, |text|)
    ensures NamesFaked(hits, mapper.fakes, |hits|)
    ensures out == ReplacedText(text, hits, mapper.fakes)
    ensures Extends(old(mapper.fakes), mapper.fakes)
  {
    var found := matcher.Find(text);
    hits := found;
    if found == [] { return text, hits; }
    out := "";
    var last := 0;
    for h := 0 to |found|
      invariant mapper.Valid() && last == Dealt(found, h) && InOrder(found, |text|)
      invariant NamesFaked(found, mapper.fakes, h) && out == Replaced(text, found, mapper.fakes, h)
      invariant Extends(old(mapper.fakes), mapper.fakes)
    {
      ghost var was := mapper.fakes;
      var fake := NextFake(mapper, found[h].name);
      ReplacedNext(text, found, was, mapper.fakes, h, out);
      out := out + text[last..found[h].start] + fake;
      last := found[h].end;
    }
    out := out + text[last..];
  }

  method NextFake(mapper: NameMapper, name: string) returns (fake: string)
    requires mapper.Valid()
    modifies mapper
    ensures mapper.Valid() && name in mapper.fakes && fake == mapper.fakes[name] &&
        Extends(old(mapper.fakes), mapper.fakes)
  {
    ghost var round, steps;
    fake, round, steps := mapper.FakeFor(name);
  }

  ghost predicate Extends(was: map<string, string>, now: map<string, string>) {
    forall a :: a in was ==> a in now && now[a] == was[a]
  }

  predicate NamesFaked(hits: seq<Hit>, fakes: map<string, string>, n: nat)
    requires n <= |hits|
  {
    forall h :: 0 <= h < n ==> hits[h].name in fakes
  }

  lemma ReplacedNext(text: string, hits: seq<Hit>, was: map<string, string>, now: map<string, string>, h: nat,
                     out: string)
    requires h < |hits| && InOrder(hits, |text|) && NamesFaked(hits, was, h) && Extends(was, now) && hits[h].name in now
    requires out == Replaced(text, hits, was, h)
    ensures NamesFaked(hits, now, h + 1) && Dealt(hits, h) <= hits[h].start <= |text|
    ensures out + text[Dealt(hits, h)..hits[h].start] + now[hits[h].name] == Replaced(text, hits, now, h + 1)
  {
    ReplacedAgree(text, hits, was, now, h);
  }

  /** With every name its own fake the text comes back: nothing outside the spans is touched. */
  lemma {:induction false} SpansOnly(text: string, hits: seq<Hit>, fakes: map<string, string>, n: nat)
    requires n <= |hits| && InOrder(hits, |text|)
    requires forall h :: 0 <= h < |hits| ==>
        hits[h].name in fakes && fakes[hits[h].name] == hits[h].name == text[hits[h].start..hits[h].end]
    ensures Replaced(text, hits, fakes, n) == text[..Dealt(hits, n)]
    ensures n == |hits| ==> ReplacedText(text, hits, fakes) == text
  {
    if n > 0 {
      SpansOnly(text, hits, fakes, n - 1);
      var a, s, e := Dealt(hits, n - 1), hits[n - 1].start, hits[n - 1].end;
      assert a <= s;
      assert text[..a] + text[a..s] == text[..s];
      assert text[..s] + text[s..e] == text[..e];
    }
    assert text[..Dealt(hits, n)] + text[Dealt(hits, n)..] == text;
  }
}
