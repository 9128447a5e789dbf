/** Equations read only figures that are already written, so writing more figures keeps them. */
module ScrubStability {
  import opened Cents
  import opened Wrappers
  import opened FixtureBook
  import opened ScrubSpec

  /** `now` holds every figure `out` holds, unchanged, and only figures of the original. */
  ghost predicate Grew(before: Amounts, out: Amounts, now: Amounts) {
    && (forall fld :: fld in out ==> fld in now && now[fld] == out[fld])
    && now.Keys <= before.Keys
  }

  lemma LeafLineStable(b: Book, before: Amounts, out: Amounts, now: Amounts, k: Key, i: nat, f: real)
    requires Grew(before, out, now) && i < |b.Lines(k)| && LeafLineEq(b, before, out, k, i, f)
    ensures LeafLineEq(b, before, now, k, i, f)
    ensures IsLeaf(b.Lines(k)[i]) ==> LineValue(b, now, k, i) == LineValue(b, out, k, i)
  {
    var line := b.Lines(k)[i];
    if line.detail.Group? {
      forall j: nat | j < |line.subs|
        ensures SubEq(b, before, now, k, i, j, f)
        ensures Get(now, SubAmount(k, i, j)) == Get(out, SubAmount(k, i, j))
      {
        assert SubEq(b, before, out, k, i, j, f);
      }
      assert SubValues(b, now, k, i) == SubValues(b, out, k, i);
    }
  }

  /** The first `n` lines stand, and what they add up to stands. */
  lemma LeafLinesStable(b: Book, before: Amounts, out: Amounts, now: Amounts, k: Key, n: nat, f: real)
    requires Grew(before, out, now) && n <= |b.Lines(k)|
    requires forall i: nat :: i < n ==> LeafLineEq(b, before, out, k, i, f)
    ensures forall i: nat :: i < n ==> LeafLineEq(b, before, now, k, i, f)
    ensures SumTo(LineValues(b, now, k), n) == SumTo(LineValues(b, out, k), n)
    ensures SumTo(TaxableLineValues(b, now, k), n) == SumTo(TaxableLineValues(b, out, k), n)
  {
    forall i: nat | i < n
      ensures LeafLineEq(b, before, now, k, i, f)
      ensures LineValues(b, now, k)[i] == LineValues(b, out, k)[i]
      ensures TaxableLineValues(b, now, k)[i] == TaxableLineValues(b, out, k)[i]
    {
      LeafLineStable(b, before, out, now, k, i, f);
    }
    SumToAgrees(LineValues(b, now, k), LineValues(b, out, k), n);
    SumToAgrees(TaxableLineValues(b, now, k), TaxableLineValues(b, out, k), n);
  }

  lemma LinesStable(b: Book, before: Amounts, out: Amounts, now: Amounts, k: Key, f: real)
    requires Grew(before, out, now) && LinesEq(b, before, out, k, f)
    ensures LinesEq(b, before, now, k, f)
    ensures LeafSum(b, now, k) == LeafSum(b, out, k) && TaxableSum(b, now, k) == TaxableSum(b, out, k)
    ensures DiscountValues(b, now, k) == DiscountValues(b, out, k)
  {
    LeafLinesStable(b, before, out, now, k, |b.Lines(k)|, f);
    forall i: nat | i < |b.Lines(k)|
      ensures SummaryLineEq(b, before, now, k, i, f)
      ensures DiscountValues(b, now, k)[i] == DiscountValues(b, out, k)[i]
    {
      assert SummaryLineEq(b, before, out, k, i, f);
    }
  }

  lemma TaxStable(b: Book, before: Amounts, out: Amounts, now: Amounts, k: Key, f: real)
    requires Grew(before, out, now) && TaxEq(b, before, out, k, f)
    requires TaxableSum(b, now, k) == TaxableSum(b, out, k)
    ensures TaxEq(b, before, now, k, f)
    ensures TaxValues(b, now, k) == TaxValues(b, out, k) && TaxOf(b, now, k) == TaxOf(b, out, k)
  {
    forall i: nat | i < |b.TaxLines(k)|
      ensures TaxLineEq(b, before, now, k, i, f)
      ensures TaxValues(b, now, k)[i] == TaxValues(b, out, k)[i]
    {
      assert TaxLineEq(b, before, out, k, i, f);
    }
    assert TaxValues(b, now, k) == TaxValues(b, out, k);
  }

  lemma LineDocStable(b: Book, before: Amounts, out: Amounts, now: Amounts, k: Key, f: real)
    requires Grew(before, out, now) && LineDocEq(b, before, out, k, f)
    ensures LineDocEq(b, before, now, k, f)
    ensures Base(now, k) == Base(out, k)
  {
    LinesStable(b, before, out, now, k, f);
    TaxStable(b, before, out, now, k, f);
  }

  lemma SideStable(b: Book, before: Amounts, out: Amounts, now: Amounts, k: Key, side: Side)
    requires Grew(before, out, now)
    requires forall i: nat :: i < |b.Lines(k)| ==> LineAmount(k, i) in before ==> LineAmount(k, i) in out
    ensures JournalSide(b, before.Keys, now, k, side) == JournalSide(b, before.Keys, out, k, side)
  {
    var lines := SideLines(b, before.Keys, k, side, |b.Lines(k)|);
    forall j | 0 <= j < |lines| ensures LineAmounts(now, k, lines)[j] == LineAmounts(out, k, lines)[j] {
      assert lines[j] in lines;
    }
  }

  lemma JournalStable(b: Book, before: Amounts, out: Amounts, now: Amounts, k: Key, f: real)
    requires Grew(before, out, now) && JournalEq(b, before, out, k, f)
    ensures JournalEq(b, before, now, k, f)
  {
    SideStable(b, before, out, now, k, Debit);
    SideStable(b, before, out, now, k, Credit);
  }

  lemma BalanceStable(b: Book, before: Amounts, out: Amounts, now: Amounts, k: Key, f: real)
    requires Grew(before, out, now) && LineDocEq(b, before, out, k, f) && BalanceEq(b, before, out, k, f)
    ensures BalanceEq(b, before, now, k, f)
  {
    LineDocStable(b, before, out, now, k, f);
    assert AppAmounts(now, Apps(b, before.Keys, k)) == AppAmounts(out, Apps(b, before.Keys, k));
  }

  lemma PayerStable(b: Book, before: Amounts, out: Amounts, now: Amounts, k: Key, f: real)
    requires Grew(before, out, now) && PayerEq(b, before, out, k, f)
    ensures PayerEq(b, before, now, k, f)
  {
    forall i: nat | i < |b.Lines(k)| ensures PayerValues(b, now, k)[i] == PayerValues(b, out, k)[i] {
      assert IsApplication(b, before.Keys, k, i) || LeafEq(before, out, LineAmount(k, i), f);
    }
    assert PayerValues(b, now, k) == PayerValues(b, out, k);
  }

  lemma DepositStable(b: Book, before: Amounts, out: Amounts, now: Amounts, k: Key, f: real)
    requires Grew(before, out, now) && DepositEq(b, before, out, k, f)
    ensures DepositEq(b, before, now, k, f)
  {
    forall i: nat | i < |b.Lines(k)|
      ensures DepositLineEq(b, before, now, k, i, f)
      ensures DepositValues(b, now, k)[i] == DepositValues(b, out, k)[i]
    {
      assert DepositLineEq(b, before, out, k, i, f);
    }
    assert DepositValues(b, now, k) == DepositValues(b, out, k);
  }

  /** Every figure that is part of a contact's open balance is written. */
  ghost predicate OpenWritten(b: Book, before: Amounts, out: Amounts) {
    forall doc :: doc in b.entities && OpenItemOf(b, doc).Some? && OpenItemOf(b, doc).value.field in before ==>
      OpenItemOf(b, doc).value.field in out
  }

  lemma ContactStable(b: Book, before: Amounts, out: Amounts, now: Amounts, k: Key, f: real)
    requires Grew(before, out, now) && OpenWritten(b, before, out) && ContactEq(b, before, out, k, f)
    ensures ContactEq(b, before, now, k, f)
  {
    OpenTermsStable(b, before, out, now, k);
  }

  lemma OpenTermsStable(b: Book, before: Amounts, out: Amounts, now: Amounts, k: Key)
    requires Grew(before, out, now) && OpenWritten(b, before, out)
    ensures OpenTerms(b, now, k) == OpenTerms(b, out, k)
  {
    forall j | 0 <= j < |b.keys| ensures OpenTerms(b, now, k)[j] == OpenTerms(b, out, k)[j] {}
  }

  // ---- What entities hand up ----

  /** Everything `Carried` reads is written. */
  ghost predicate CarriedWritten(b: Book, fields: set<Field>, out: Amounts, t: Rollup, k: Key, n: nat)
    decreases n, |b.keys|
  {
    if Head(k, t.total) in fields then Head(k, t.total) in out
    else
      && (Head(k, t.own) in fields ==> Head(k, t.own) in out)
      && (n > 0 ==> forall c {:trigger IsChild(b, k, c)} :: c in b.entities && IsChild(b, k, c) ==>
            CarriedWritten(b, fields, out, t, c, n - 1))
  }

  lemma {:induction false} CarriedStable(b: Book, before: Amounts, out: Amounts, now: Amounts, t: Rollup, k: Key,
                                         n: nat)
    requires Grew(before, out, now) && CarriedWritten(b, before.Keys, out, t, k, n)
    ensures Carried(b, before.Keys, now, t, k, n) == Carried(b, before.Keys, out, t, k, n)
    ensures CarriedWritten(b, before.Keys, now, t, k, n)
    decreases n
  {
    if n > 0 && Head(k, t.total) !in before {
      forall c | c in b.entities && IsChild(b, k, c)
        ensures Carried(b, before.Keys, now, t, c, n - 1) == Carried(b, before.Keys, out, t, c, n - 1)
        ensures CarriedWritten(b, before.Keys, now, t, c, n - 1)
      {
        CarriedStable(b, before, out, now, t, c, n - 1);
      }
      assert CarriedUp(b, before.Keys, now, t, k, n - 1) == CarriedUp(b, before.Keys, out, t, k, n - 1);
    }
  }

  /** The equation of a rollup, with its own figure and all that its children hand up written. */
  ghost predicate RollupDone(b: Book, before: Amounts, out: Amounts, t: Rollup, k: Key, f: real) {
    && (Head(k, t.own) in before ==> Head(k, t.own) in out)
    && (Head(k, t.total) in before ==> Head(k, t.total) in out)
    && (forall c :: c in b.entities && IsChild(b, k, c) ==> CarriedWritten(b, before.Keys, out, t, c, MAX_DEPTH))
    && RollupEq(b, before, out, t, k, f)
  }

  lemma RollupStable(b: Book, before: Amounts, out: Amounts, now: Amounts, t: Rollup, k: Key, f: real)
    requires Grew(before, out, now) && RollupDone(b, before, out, t, k, f)
    ensures RollupDone(b, before, now, t, k, f)
  {
    forall c | c in b.entities && IsChild(b, k, c)
      ensures Carried(b, before.Keys, now, t, c, MAX_DEPTH) == Carried(b, before.Keys, out, t, c, MAX_DEPTH)
      ensures CarriedWritten(b, before.Keys, now, t, c, MAX_DEPTH)
    {
      CarriedStable(b, before, out, now, t, c, MAX_DEPTH);
    }
    assert CarriedUp(b, before.Keys, now, t, k, MAX_DEPTH) == CarriedUp(b, before.Keys, out, t, k, MAX_DEPTH);
  }
}
