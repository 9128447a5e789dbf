/** Fake names for real ones (`NameMapper`). */
module Names {
  import opened Wrappers
  import opened Numbers

  predicate NoSpace(s: string) { ' ' !in s }

  /** Two word lists without repeats whose words hold no space. */
  predicate GoodWords(words: seq<string>) {
    && words != []
    && (forall i :: 0 <= i < |words| ==> NoSpace(words[i]))
    && (forall i, j :: 0 <= i < j < |words| ==> words[i] != words[j])
  }

  function Suffix(round: nat): string { if round == 0 then "" else " " + Decimal(round + 1) }

  /** Where the first space is, or the length. */
  function FirstSpace(s: string): nat { if s == "" || s[0] == ' ' then 0 else 1 + FirstSpace(s[1..]) }

  /** A text that is at its end or goes on with a space. */
  predicate Breaks(rest: string) { rest == "" || rest[0] == ' ' }

  lemma {:induction false} SpaceAfter(word: string, rest: string)
    requires NoSpace(word) && Breaks(rest)
    ensures FirstSpace(word + rest) == |word|
  {
    if word != "" {
      assert (word + rest)[0] == word[0] && (word + rest)[1..] == word[1..] + rest;
      SpaceAfter(word[1..], rest);
    } else {
      assert word + rest == rest;
    }
  }

  /** A word and what follows it give each other back. */
  lemma SplitAtSpace(x: string, y: string, u: string, v: string)
    requires NoSpace(x) && NoSpace(y) && Breaks(u) && Breaks(v) && x + u == y + v
    ensures x == y && u == v
  {
    SpaceAfter(x, u);
    SpaceAfter(y, v);
    assert x == (x + u)[..|x|] == (y + v)[..|y|] == y;
    assert u == (x + u)[|x|..] == (y + v)[|y|..] == v;
  }

  lemma SuffixesDiffer(r: nat, q: nat)
    requires Suffix(r) == Suffix(q)
    ensures r == q
  {
    if r > 0 && q > 0 {
      assert Suffix(r)[1..] == Decimal(r + 1) && Suffix(q)[1..] == Decimal(q + 1);
      ValueOfDecimal(r + 1);
      ValueOfDecimal(q + 1);
    } else {
      assert |Suffix(0)| == 0;
    }
  }

  function Rest(last: string, round: nat): (s: string)
    ensures Breaks(s)
  {
    " " + (last + Suffix(round))
  }

  function Fake(first: string, last: string, round: nat): string { first + Rest(last, round) }

  lemma FakesDiffer(f: string, l: string, r: nat, g: string, m: string, q: nat)
    requires NoSpace(f) && NoSpace(l) && NoSpace(g) && NoSpace(m) && Fake(f, l, r) == Fake(g, m, q)
    ensures f == g && l == m && r == q
  {
    SplitAtSpace(f, g, Rest(l, r), Rest(m, q));
    assert Rest(l, r)[1..] == l + Suffix(r) && Rest(m, q)[1..] == m + Suffix(q);
    SplitAtSpace(l, m, Suffix(r), Suffix(q));
    SuffixesDiffer(r, q);
  }

  lemma SlotBounds(n: nat, d: nat, slot: nat)
    requires d > 0 && slot < n * d
    ensures Quotient(slot, d) < n && Remainder(slot, d) < d
  {}

  /** The fakes: `slot` picks the words, `round` the suffix. */
  function Candidate(first: seq<string>, last: seq<string>, slot: nat, round: nat): string
    requires last != [] && slot < |first| * |last|
  {
    SlotBounds(|first|, |last|, slot);
    Fake(first[Quotient(slot, |last|)], last[Remainder(slot, |last|)], round)
  }

  /** A fake is a first word, a space and a last word; from the second round on a space and the round's number
      follow. */
  lemma CandidateSays(first: seq<string>, last: seq<string>, i: nat, j: nat, round: nat)
    requires i < |first| && j < |last| && i * |last| + j < |first| * |last|
    ensures Candidate(first, last, i * |last| + j, round) ==
            first[i] + (" " + (last[j] + (if round == 0 then "" else " " + Decimal(round + 1))))
  {
    SlotIs(i, j, |last|);
  }

  lemma SlotIs(i: nat, j: nat, d: nat)
    requires j < d
    ensures Quotient(i * d + j, d) == i && Remainder(i * d + j, d) == j
  {
    DivideBack(i, j, d, (i * d + j) / d, (i * d + j) % d);
  }

  lemma AtLeastOnce(times: int, d: nat)
    requires times >= 1
    ensures times * d >= d
  {
    assert (times - 1) * d >= 0;
  }

  lemma DivideBack(i: nat, j: nat, d: nat, q: int, r: int)
    requires j < d && 0 <= r < d && i * d + j == q * d + r
    ensures q == i && r == j
  {
    assert (i - q) * d == r - j && (q - i) * d == j - r;
    if q < i { AtLeastOnce(i - q, d); }
    if q > i { AtLeastOnce(q - i, d); }
  }

  lemma WordsDiffer(first: seq<string>, last: seq<string>, i: nat, m: nat, r: nat, j: nat, n: nat, q: nat)
    requires GoodWords(first) && GoodWords(last) && i < |first| && j < |first| && m < |last| && n < |last|
    requires Fake(first[i], last[m], r) == Fake(first[j], last[n], q)
    ensures i == j && m == n && r == q
  {
    FakesDiffer(first[i], last[m], r, first[j], last[n], q);
    assert first[i] == first[j] && last[m] == last[n];
  }

  lemma SameSlot(s: nat, t: nat, d: nat)
    requires d > 0 && s / d == t / d && s % d == t % d
    ensures s == t
  {
    assert s == d * (s / d) + s % d;
    assert t == d * (t / d) + t % d;
  }

  function Quotient(slot: nat, d: nat): nat
    requires d > 0
  {
    slot / d
  }

  function Remainder(slot: nat, d: nat): nat
    requires d > 0
  {
    slot % d
  }

  /** Different slots or rounds give different fakes. */
  lemma CandidatesDiffer(first: seq<string>, last: seq<string>, s: nat, r: nat, t: nat, q: nat)
    requires GoodWords(first) && GoodWords(last) && s < |first| * |last| && t < |first| * |last|
    requires Candidate(first, last, s, r) == Candidate(first, last, t, q)
    ensures s == t && r == q
  {
    var d := |last|;
    SlotBounds(|first|, d, s);
    SlotBounds(|first|, d, t);
    WordsDiffer(first, last, Quotient(s, d), Remainder(s, d), r, Quotient(t, d), Remainder(t, d), q);
    SameSlot(s, t, d);
  }

  // ---- What is taken ----

  /** Different slots or rounds give different fakes. */
  ghost predicate Injective(fakeAt: (nat, nat) -> string, span: nat) {
    forall s: nat, r: nat, t: nat, q: nat :: s < span && t < span && fakeAt(s, r) == fakeAt(t, q) ==> s == t && r == q
  }

  lemma WordsInjective(first: seq<string>, last: seq<string>, fakeAt: (nat, nat) -> string)
    requires GoodWords(first) && GoodWords(last)
    requires forall s: nat, r: nat :: s < |first| * |last| ==> fakeAt(s, r) == Candidate(first, last, s, r)
    ensures Injective(fakeAt, |first| * |last|)
  {
    forall s: nat, r: nat, t: nat, q: nat | s < |first| * |last| && t < |first| * |last| && fakeAt(s, r) == fakeAt(t, q)
      ensures s == t && r == q
    {
      CandidatesDiffer(first, last, s, r, t, q);
    }
  }

  /** How many of the first `n` slots of a round are taken. */
  function Filled(fakeAt: (nat, nat) -> string, taken: set<string>, round: nat, n: nat): (count: nat)
    ensures count <= n
  {
    if n == 0 then 0
    else Filled(fakeAt, taken, round, n - 1) + (if fakeAt(n - 1, round) in taken then 1 else 0)
  }

  lemma {:induction false} FilledAll(fakeAt: (nat, nat) -> string, taken: set<string>, round: nat, n: nat)
    ensures Filled(fakeAt, taken, round, n) == n <==> forall s: nat :: s < n ==> fakeAt(s, round) in taken
  {
    if n > 0 { FilledAll(fakeAt, taken, round, n - 1); }
  }

  /** Taking a free fake fills one slot of its round and none of another. */
  lemma {:induction false} FilledAfter(fakeAt: (nat, nat) -> string, span: nat, taken: set<string>, slot: nat,
                                       round: nat, other: nat, n: nat)
    requires Injective(fakeAt, span) && slot < span && n <= span && fakeAt(slot, round) !in taken
    ensures Filled(fakeAt, taken + {fakeAt(slot, round)}, other, n)
         == Filled(fakeAt, taken, other, n) + (if other == round && slot < n then 1 else 0)
  {
    if n > 0 { FilledAfter(fakeAt, span, taken, slot, round, other, n - 1); }
  }

  ghost predicate RoundTaken(fakeAt: (nat, nat) -> string, span: nat, taken: set<string>, round: nat) {
    forall s: nat :: s < span ==> fakeAt(s, round) in taken
  }

  /** The first slot's fake in each of the first `n` rounds. */
  ghost function FirstFakes(fakeAt: (nat, nat) -> string, n: nat): set<string> {
    set r: nat | r < n :: fakeAt(0, r)
  }

  lemma NextFirstFake(fakeAt: (nat, nat) -> string, span: nat, n: nat)
    requires Injective(fakeAt, span) && span > 0
    ensures FirstFakes(fakeAt, n + 1) == FirstFakes(fakeAt, n) + {fakeAt(0, n)}
    ensures fakeAt(0, n) !in FirstFakes(fakeAt, n)
  {}

  /** Only as many rounds can be full as names are taken. */
  lemma {:induction false} FullRoundsBounded(fakeAt: (nat, nat) -> string, span: nat, taken: set<string>, n: nat)
    requires Injective(fakeAt, span) && span > 0
    requires forall r: nat :: r < n ==> RoundTaken(fakeAt, span, taken, r)
    ensures FirstFakes(fakeAt, n) <= taken && |FirstFakes(fakeAt, n)| == n <= |taken|
  {
    if n > 0 {
      FullRoundsBounded(fakeAt, span, taken, n - 1);
      NextFirstFake(fakeAt, span, n - 1);
      assert RoundTaken(fakeAt, span, taken, n - 1);
    }
    SubsetSize(FirstFakes(fakeAt, n), taken);
  }

  lemma {:induction false} SubsetSize<T>(a: set<T>, b: set<T>)
    requires a <= b
    ensures |a| <= |b|
    decreases a
  {
    if a != {} {
      var x :| x in a;
      SubsetSize(a - {x}, b - {x});
    }
  }

  function Wrap(i: nat, span: nat): nat
    requires i <= span && span > 0
  {
    if i == span then 0 else i
  }

  /** The slot `k` places on from `index`. */
  function ProbeAt(index: nat, k: nat, span: nat): (slot: nat)
    requires index < span
    ensures slot < span
  {
    if k == 0 then index else Wrap(ProbeAt(index, k - 1, span) + 1, span)
  }

  lemma {:induction false} ProbeIs(index: nat, k: nat, span: nat)
    requires index < span && k <= span
    ensures ProbeAt(index, k, span) == if index + k < span then index + k else index + k - span
  {
    if k > 0 { ProbeIs(index, k - 1, span); }
  }

  /** Probing as many places as there are slots comes to every slot. */
  lemma ProbesAll(index: nat, slot: nat, span: nat)
    requires index < span && slot < span
    ensures exists k: nat :: k < span && ProbeAt(index, k, span) == slot
  {
    var k := if slot >= index then slot - index else slot + span - index;
    ProbeIs(index, k, span);
  }

  /** Every place before the `k`-th from `index` on is taken. */
  ghost predicate TakenBefore(fakeAt: (nat, nat) -> string, span: nat, taken: set<string>, index: nat, round: nat,
                              k: nat)
    requires index < span
  {
    forall j: nat :: j < k ==> fakeAt(ProbeAt(index, j, span), round) in taken
  }

  /** The first free slot of a round from `index` on, going around once. */
  method Probe(fakeAt: (nat, nat) -> string, span: nat, taken: set<string>, index: nat, round: nat)
    returns (slot: Option<nat>, ghost steps: nat)
    requires index < span
    ensures slot.None? ==> RoundTaken(fakeAt, span, taken, round)
    ensures slot.Some? ==> slot.value == ProbeAt(index, steps, span) && fakeAt(slot.value, round) !in taken
    ensures slot.Some? ==> TakenBefore(fakeAt, span, taken, index, round, steps)
  {
    var probe := index;
    steps := 0;
    for k := 0 to span
      invariant probe == ProbeAt(index, k, span) && steps == k
      invariant TakenBefore(fakeAt, span, taken, index, round, k)
    {
      if fakeAt(probe, round) !in taken { return Some(probe), steps; }
      probe := Wrap(probe + 1, span);
      steps := steps + 1;
    }
    forall s: nat | s < span ensures fakeAt(s, round) in taken {
      ProbesAll(index, s, span);
      var k: nat :| k < span && ProbeAt(index, k, span) == s;
    }
    slot := None;
  }

  /** A round is marked full only when it is, and never counts more than is taken. */
  ghost predicate FillsKept(fakeAt: (nat, nat) -> string, span: nat, taken: set<string>, roundFill: seq<nat>) {
    forall r: nat :: r < |roundFill| ==> roundFill[r] <= Filled(fakeAt, taken, r, span)
  }

  lemma FillsAfter(fakeAt: (nat, nat) -> string, span: nat, taken: set<string>, roundFill: seq<nat>, slot: nat,
                   round: nat)
    requires Injective(fakeAt, span) && FillsKept(fakeAt, span, taken, roundFill)
    requires slot < span && round < |roundFill| && fakeAt(slot, round) !in taken
    ensures FillsKept(fakeAt, span, taken + {fakeAt(slot, round)}, roundFill[round := roundFill[round] + 1])
  {
    forall r: nat | r < |roundFill|
      ensures roundFill[round := roundFill[round] + 1][r] <= Filled(fakeAt, taken + {fakeAt(slot, round)}, r, span)
    {
      FilledAfter(fakeAt, span, taken, slot, round, r, span);
    }
  }

  class NameMapper {
    /** The fake for a slot of a round. */
    const fakeAt: (nat, nat) -> string
    /** Slots in a round. */
    const span: nat
    /** The digest of a name, keyed; any function will do. */
    const digest: string -> nat
    /** Real names, never handed out as fakes. */
    const reserved: set<string>

    var fakes: map<string, string>
    var taken: set<string>
    /** Fakes handed out per round; the whole span once a round is known to be full. */
    var roundFill: seq<nat>

    ghost predicate Valid()
      reads this
    {
      && Injective(fakeAt, span) && span > 0
      && reserved <= taken
      && (forall a :: a in fakes ==> fakes[a] in taken && fakes[a] !in reserved)
      && (forall a, b :: a in fakes && b in fakes && fakes[a] == fakes[b] ==> a == b)
      && FillsKept(fakeAt, span, taken, roundFill)
    }

    constructor (first: seq<string>, last: seq<string>, digest: string -> nat, reserved: set<string>)
      requires GoodWords(first) && GoodWords(last)
      ensures Valid() && fakes == map[] && this.reserved == reserved && this.digest == digest
      ensures span == |first| * |last|
      ensures forall s: nat, r: nat :: s < span ==> fakeAt(s, r) == Candidate(first, last, s, r)
    {
      fakeAt := (s: nat, r: nat) => if s < |first| * |last| then Candidate(first, last, s, r) else "";
      this.span, this.digest, this.reserved := |first| * |last|, digest, reserved;
      fakes, taken, roundFill := map[], reserved, [];
      new;
      SpanPositive(|first|, |last|);
      WordsInjective(first, last, fakeAt);
    }

    /** The first round with a free slot, and that slot. */
    method FreeSlot(index: nat) returns (slot: nat, round: nat, ghost steps: nat)
      requires Valid() && index < span
      modifies `roundFill
      ensures Valid() && round < |roundFill|
      ensures slot == ProbeAt(index, steps, span) && fakeAt(slot, round) !in taken
      ensures TakenBefore(fakeAt, span, taken, index, round, steps)
      ensures forall r: nat :: r < round ==> RoundTaken(fakeAt, span, taken, r)
    {
      round := 0;
      while true
        invariant Valid() && round <= |roundFill|
        invariant forall r: nat :: r < round ==> RoundTaken(fakeAt, span, taken, r)
        decreases |taken| + 1 - round
      {
        FullRoundsBounded(fakeAt, span, taken, round);
        if round == |roundFill| { roundFill := roundFill + [0]; }
        FilledAll(fakeAt, taken, round, span);
        if roundFill[round] < span {
          var found;
          found, steps := Probe(fakeAt, span, taken, index, round);
          if found.Some? { slot := found.value; return; }
          roundFill := roundFill[round := span];
        }
        round := round + 1;
      }
    }

    /** `fake_for`: a fake no real name and no other original has, from the first round with a free
        slot, and there the first free one from where the digest points. */
    method FakeFor(original: string) returns (fake: string, ghost round: nat, ghost steps: nat)
      requires Valid()
      modifies this
      ensures Valid() && original in fakes && fake == fakes[original]
      ensures original in old(fakes) ==> fakes == old(fakes) && taken == old(taken)
      ensures original !in old(fakes) ==> fakes == old(fakes)[original := fake]
      ensures original !in old(fakes) ==>
        var index := digest(original) % span;
        && fake == fakeAt(ProbeAt(index, steps, span), round) && fake !in old(taken)
        && (forall r: nat :: r < round ==> RoundTaken(fakeAt, span, old(taken), r))
        && TakenBefore(fakeAt, span, old(taken), index, round, steps)
    {
      if original in fakes { return fakes[original], 0, 0; }
      var slot, roundNo;
      slot, roundNo, steps := FreeSlot(digest(original) % span);
      round := roundNo;
      fake := fakeAt(slot, roundNo);
      FillsAfter(fakeAt, span, taken, roundFill, slot, roundNo);
      roundFill := roundFill[roundNo := roundFill[roundNo] + 1];
      taken := taken + {fake};
      fakes := fakes[original := fake];
    }

    /** Any sequence of calls: every name keeps its fake, and no two share one. */
    method FakeAll(originals: seq<string>) returns (answers: seq<string>)
      requires Valid()
      modifies this
      ensures Valid() && |answers| == |originals|
      ensures forall i :: 0 <= i < |originals| ==>
          originals[i] in fakes && answers[i] == fakes[originals[i]] && answers[i] !in reserved
      ensures forall i, j :: 0 <= i < |originals| && 0 <= j < |originals| ==>
          (answers[i] == answers[j] <==> originals[i] == originals[j])
      ensures forall a :: a in old(fakes) ==> a in fakes && fakes[a] == old(fakes)[a]
    {
      answers := [];
      for i := 0 to |originals|
        invariant Valid() && |answers| == i
        invariant forall j :: 0 <= j < i ==> originals[j] in fakes && answers[j] == fakes[originals[j]]
        invariant forall a :: a in old(fakes) ==> a in fakes && fakes[a] == old(fakes)[a]
      {
        var fake, _, _ := FakeFor(originals[i]);
        answers := answers + [fake];
      }
    }
  }

  lemma SpanPositive(n: nat, m: nat)
    requires n > 0 && m > 0
    ensures n * m > 0
  {}
}
