/** The stages of a run: what each leaves behind, and that later stages keep it. */
module ScrubStages {
  import opened Cents
  import opened Wrappers
  import opened FixtureBook
  import opened ScrubSpec
  import opened ScrubStability
  import opened ScrubSteps
  import opened ScrubWhole

  /** Nothing beyond stage `s` is written. */
  ghost predicate UpTo(b: Book, before: Amounts, out: Amounts, s: nat) {
    forall fld :: fld in out ==> Stage(b, before, fld) <= s
  }

  /** Stage `s` is written for the first `n` entities only. */
  ghost predicate Within1(b: Book, before: Amounts, out: Amounts, s: nat, n: nat)
    requires n <= |b.keys|
  {
    forall fld :: fld in out && Stage(b, before, fld) == s ==> Owner(b, before, fld) in b.keys[..n]
  }

  ghost predicate DocEq(b: Book, before: Amounts, out: Amounts, k: Key, f: real) {
    && (IsLineDoc(k.kind) ==> LineDocEq(b, before, out, k, f))
    && (k.kind.JournalEntry? ==> JournalEq(b, before, out, k, f))
  }

  ghost predicate DocsEq(b: Book, before: Amounts, out: Amounts, factor: Key -> real, n: nat)
    requires n <= |b.keys|
  {
    forall k :: k in b.keys[..n] ==> DocEq(b, before, out, k, factor(k))
  }

  ghost predicate BalancesEq(b: Book, before: Amounts, out: Amounts, factor: Key -> real, n: nat)
    requires n <= |b.keys|
  {
    forall k :: k in b.keys[..n] && IsLineDoc(k.kind) ==> BalanceEq(b, before, out, k, factor(k))
  }

  ghost predicate PayersEq(b: Book, before: Amounts, out: Amounts, factor: Key -> real, n: nat)
    requires n <= |b.keys|
  {
    forall k :: k in b.keys[..n] && IsPayer(k.kind) ==> PayerEq(b, before, out, k, factor(k))
  }

  ghost predicate DepositsEq(b: Book, before: Amounts, out: Amounts, factor: Key -> real, n: nat)
    requires n <= |b.keys|
  {
    forall k :: k in b.keys[..n] && k.kind.Deposit? ==> DepositEq(b, before, out, k, factor(k))
  }

  ghost predicate ContactsEq(b: Book, before: Amounts, out: Amounts, factor: Key -> real, n: nat)
    requires n <= |b.keys|
  {
    forall k :: k in b.keys[..n] && (k.kind.Customer? || k.kind.Vendor?) ==> ContactEq(b, before, out, k, factor(k))
  }

  lemma DocsStay(b: Book, before: Amounts, was: Amounts, out: Amounts, factor: Key -> real, n: nat)
    requires n <= |b.keys| && Grew(before, was, out) && DocsEq(b, before, was, factor, n)
    ensures DocsEq(b, before, out, factor, n)
  {
    forall k | k in b.keys[..n] ensures DocEq(b, before, out, k, factor(k)) {
      if IsLineDoc(k.kind) { LineDocStable(b, before, was, out, k, factor(k)); }
      if k.kind.JournalEntry? { JournalStable(b, before, was, out, k, factor(k)); }
    }
  }

  lemma BalancesStay(b: Book, before: Amounts, was: Amounts, out: Amounts, factor: Key -> real, n: nat)
    requires n <= |b.keys| && Grew(before, was, out)
    requires DocsEq(b, before, was, factor, |b.keys|) && BalancesEq(b, before, was, factor, n)
    ensures BalancesEq(b, before, out, factor, n)
  {
    forall k | k in b.keys[..n] && IsLineDoc(k.kind) ensures BalanceEq(b, before, out, k, factor(k)) {
      assert k in b.keys[..|b.keys|];
      assert DocEq(b, before, was, k, factor(k));
      BalanceStable(b, before, was, out, k, factor(k));
    }
  }

  lemma PayersStay(b: Book, before: Amounts, was: Amounts, out: Amounts, factor: Key -> real, n: nat)
    requires n <= |b.keys| && Grew(before, was, out) && PayersEq(b, before, was, factor, n)
    ensures PayersEq(b, before, out, factor, n)
  {
    forall k | k in b.keys[..n] && IsPayer(k.kind) ensures PayerEq(b, before, out, k, factor(k)) {
      PayerStable(b, before, was, out, k, factor(k));
    }
  }

  lemma DepositsStay(b: Book, before: Amounts, was: Amounts, out: Amounts, factor: Key -> real, n: nat)
    requires n <= |b.keys| && Grew(before, was, out) && DepositsEq(b, before, was, factor, n)
    ensures DepositsEq(b, before, out, factor, n)
  {
    forall k | k in b.keys[..n] && k.kind.Deposit? ensures DepositEq(b, before, out, k, factor(k)) {
      DepositStable(b, before, was, out, k, factor(k));
    }
  }

  lemma ContactsStay(b: Book, before: Amounts, was: Amounts, out: Amounts, factor: Key -> real, n: nat)
    requires n <= |b.keys| && Grew(before, was, out) && OpenWritten(b, before, was) &&
        ContactsEq(b, before, was, factor, n)
    ensures ContactsEq(b, before, out, factor, n)
  {
    forall k | k in b.keys[..n] && (k.kind.Customer? || k.kind.Vendor?)
      ensures ContactEq(b, before, out, k, factor(k))
    {
      ContactStable(b, before, was, out, k, factor(k));
    }
  }

  lemma PrefixNext(b: Book, i: nat)
    requires b.Valid() && i < |b.keys|
    ensures b.keys[..i + 1] == b.keys[..i] + [b.keys[i]] && b.keys[i] !in b.keys[..i]
    ensures b.keys[i] in b.entities
  {
    assert b.keys[i] in b.keys;
  }

  lemma StageBound(b: Book, before: Amounts, fld: Field)
    ensures 1 <= Stage(b, before, fld) <= REST
  {}

  /** Only figures of stage `s` of `k` are new. */
  ghost predicate NewIn(b: Book, before: Amounts, was: Amounts, out: Amounts, s: nat, k: Key) {
    forall fld :: fld in out && fld !in was ==> Stage(b, before, fld) == s && fld.key == k
  }

  /** Nothing of an entity is written before its turn in the first stage. */
  lemma OnlyFirst(b: Book, before: Amounts, out: Amounts, k: Key)
    requires UpTo(b, before, out, 1) && forall fld :: fld in out && Stage(b, before, fld) == 1 ==> fld.key != k
    ensures forall fld :: fld in out ==> fld.key != k
  {
    forall fld | fld in out ensures fld.key != k { StageBound(b, before, fld); }
  }

  lemma DocsNext(b: Book, before: Amounts, was: Amounts, out: Amounts, factor: Key -> real, i: nat)
    requires b.Valid() && i < |b.keys| && Grew(before, was, out) && DocsEq(b, before, was, factor, i)
    requires UpTo(b, before, was, 1) && Within1(b, before, was, 1, i)
    requires NewIn(b, before, was, out, 1, b.keys[i])
    requires DocEq(b, before, out, b.keys[i], factor(b.keys[i]))
    ensures DocsEq(b, before, out, factor, i + 1) && UpTo(b, before, out, 1) && Within1(b, before, out, 1, i + 1)
  {
    PrefixNext(b, i);
    DocsStay(b, before, was, out, factor, i);
  }

  lemma Unstarted(b: Book, before: Amounts, out: Amounts, s: nat, i: nat)
    requires b.Valid() && i < |b.keys| && UpTo(b, before, out, s) && Within1(b, before, out, s, i)
    ensures forall fld :: fld in out && Stage(b, before, fld) == s ==> Owner(b, before, fld) != b.keys[i]
  {
    PrefixNext(b, i);
  }

  // ---- Applications and balances ----

  lemma DocOf(b: Book, before: Amounts, out: Amounts, factor: Key -> real, k: Key)
    requires b.Valid() && k in b.entities && DocsEq(b, before, out, factor, |b.keys|)
    ensures DocEq(b, before, out, k, factor(k))
    ensures IsLineDoc(k.kind) && out.Keys <= before.Keys ==> TotalWritten(before, out, k)
  {
    assert k in b.keys[..|b.keys|];
  }

  /** Nothing of a document's turn in the second stage is written before it comes. */
  lemma BalanceUnwritten(b: Book, before: Amounts, out: Amounts, i: nat)
    requires b.Valid() && i < |b.keys| && UpTo(b, before, out, 2) && Within1(b, before, out, 2, i)
    requires IsLineDoc(b.keys[i].kind)
    ensures forall r :: r in Apps(b, before.Keys, b.keys[i]) ==> RefField(r) !in out
    ensures Head(b.keys[i], Balance) !in out && Head(b.keys[i], RemainingCredit) !in out
  {
    var k := b.keys[i];
    Unstarted(b, before, out, 2, i);
    AppsDistinct(b, before.Keys, k, |b.keys|, 0);
    forall r | r in Apps(b, before.Keys, k) ensures RefField(r) !in out {
      assert Stage(b, before, RefField(r)) == 2 && Owner(b, before, RefField(r)) == k;
    }
    assert Stage(b, before, Head(k, Balance)) == 2 && Stage(b, before, Head(k, RemainingCredit)) == 2;
  }

  lemma BalancesNext(b: Book, before: Amounts, was: Amounts, out: Amounts, factor: Key -> real, i: nat)
    requires b.Valid() && i < |b.keys| && Grew(before, was, out)
    requires DocsEq(b, before, was, factor, |b.keys|) && BalancesEq(b, before, was, factor, i)
    requires UpTo(b, before, was, 2) && Within1(b, before, was, 2, i)
    requires NewOnBalance(b, before, was, out, b.keys[i])
    requires IsLineDoc(b.keys[i].kind) ==> BalanceEq(b, before, out, b.keys[i], factor(b.keys[i]))
    ensures DocsEq(b, before, out, factor, |b.keys|) && BalancesEq(b, before, out, factor, i + 1)
    ensures UpTo(b, before, out, 2) && Within1(b, before, out, 2, i + 1)
  {
    PrefixNext(b, i);
    DocsStay(b, before, was, out, factor, |b.keys|);
    BalancesStay(b, before, was, out, factor, i);
  }

  /** Every application is in its target's list. */
  lemma {:induction false} AppsListed(b: Book, fields: set<Field>, t: Key, a: nat, i: nat, n: nat, m: nat)
    requires n <= |b.keys| && (m > 0 ==> n < |b.keys|) && a < |b.keys|
    requires (a < n && i < |b.Lines(b.keys[a])|) || (a == n && i < m)
    requires AppTarget(b, fields, b.keys[a], i) == Some(t)
    ensures LineRef(b.keys[a], i) in AppsUpTo(b, fields, t, n, m)
    decreases n, m
  {
    if m > 0 {
      if !(a == n && i == m - 1) { AppsListed(b, fields, t, a, i, n, m - 1); }
    } else {
      AppsListed(b, fields, t, a, i, n - 1, |b.Lines(b.keys[n - 1])|);
    }
  }

  lemma AppListed(b: Book, fields: set<Field>, k: Key, i: nat)
    requires b.Valid() && k in b.entities && AppTarget(b, fields, k, i).Some?
    ensures LineRef(k, i) in Apps(b, fields, AppTarget(b, fields, k, i).value)
  {
    assert k in b.keys;
    var a :| 0 <= a < |b.keys| && b.keys[a] == k;
    AppsListed(b, fields, AppTarget(b, fields, k, i).value, a, i, |b.keys|, 0);
  }

  /** After the second stage every application to a document is written. */
  lemma ApplicationWritten(b: Book, before: Amounts, out: Amounts, factor: Key -> real, k: Key, i: nat)
    requires b.Valid() && k in b.entities && BalancesEq(b, before, out, factor, |b.keys|)
    requires IsApplication(b, before.Keys, k, i)
    ensures LineAmount(k, i) in out
  {
    var t := AppTarget(b, before.Keys, k, i).value;
    AppListed(b, before.Keys, k, i);
    assert t in b.keys[..|b.keys|];
    assert BalanceEq(b, before, out, t, factor(t));
  }

  // ---- Payers ----

  lemma PayerReadyNow(b: Book, before: Amounts, out: Amounts, factor: Key -> real, i: nat)
    requires b.Valid() && i < |b.keys| && IsPayer(b.keys[i].kind)
    requires BalancesEq(b, before, out, factor, |b.keys|)
    requires UpTo(b, before, out, 3) && Within1(b, before, out, 3, i)
    ensures PayerReady(b, before, out, b.keys[i], 0)
    ensures Head(b.keys[i], UnappliedAmt) !in out && Head(b.keys[i], TotalAmt) !in out
  {
    var k := b.keys[i];
    Unstarted(b, before, out, 3, i);
    PrefixNext(b, i);
    assert Stage(b, before, Head(k, UnappliedAmt)) == 3 && Stage(b, before, Head(k, TotalAmt)) == 3;
    forall j: nat | j < |b.Lines(k)|
      ensures LineAmount(k, j) in out <==> IsApplication(b, before.Keys, k, j)
    {
      if IsApplication(b, before.Keys, k, j) {
        ApplicationWritten(b, before, out, factor, k, j);
      } else {
        assert Stage(b, before, LineAmount(k, j)) == 3;
      }
    }
  }

  lemma PayersNext(b: Book, before: Amounts, was: Amounts, out: Amounts, factor: Key -> real, i: nat)
    requires b.Valid() && i < |b.keys| && Grew(before, was, out)
    requires DocsEq(b, before, was, factor, |b.keys|) && BalancesEq(b, before, was, factor, |b.keys|)
    requires PayersEq(b, before, was, factor, i)
    requires UpTo(b, before, was, 3) && Within1(b, before, was, 3, i)
    requires forall fld :: fld in out && fld !in was ==> Stage(b, before, fld) == 3 && fld.key == b.keys[i]
    requires IsPayer(b.keys[i].kind) ==> PayerEq(b, before, out, b.keys[i], factor(b.keys[i]))
    ensures DocsEq(b, before, out, factor, |b.keys|) && BalancesEq(b, before, out, factor, |b.keys|)
    ensures PayersEq(b, before, out, factor, i + 1)
    ensures UpTo(b, before, out, 3) && Within1(b, before, out, 3, i + 1)
  {
    PrefixNext(b, i);
    DocsStay(b, before, was, out, factor, |b.keys|);
    BalancesStay(b, before, was, out, factor, |b.keys|);
    PayersStay(b, before, was, out, factor, i);
  }

  // ---- Deposits ----

  /** The first three stages are complete. */
  ghost predicate PaidUp(b: Book, before: Amounts, out: Amounts, factor: Key -> real) {
    && DocsEq(b, before, out, factor, |b.keys|)
    && BalancesEq(b, before, out, factor, |b.keys|)
    && PayersEq(b, before, out, factor, |b.keys|)
  }

  lemma PaidUpStays(b: Book, before: Amounts, was: Amounts, out: Amounts, factor: Key -> real)
    requires Grew(before, was, out) && PaidUp(b, before, was, factor)
    ensures PaidUp(b, before, out, factor)
  {
    DocsStay(b, before, was, out, factor, |b.keys|);
    BalancesStay(b, before, was, out, factor, |b.keys|);
    PayersStay(b, before, was, out, factor, |b.keys|);
  }

  lemma PaidUpOf(b: Book, before: Amounts, out: Amounts, factor: Key -> real, k: Key)
    requires b.Valid() && k in b.entities && PaidUp(b, before, out, factor)
    ensures DocEq(b, before, out, k, factor(k))
    ensures IsLineDoc(k.kind) ==> BalanceEq(b, before, out, k, factor(k))
    ensures IsPayer(k.kind) ==> PayerEq(b, before, out, k, factor(k))
  {
    assert k in b.keys[..|b.keys|];
  }

  /** An open balance is the balance of a line document or the unapplied part of a payment. */
  lemma OpenItemKinds(b: Book, doc: Key)
    requires OpenItemOf(b, doc).Some?
    ensures IsPayer(doc.kind) ==> OpenItemOf(b, doc).value.field == Head(doc, UnappliedAmt)
    ensures !IsPayer(doc.kind) ==> IsLineDoc(doc.kind) && OpenItemOf(b, doc).value.field == Head(doc, Balance)
  {}

  lemma OpenItemWritten(b: Book, before: Amounts, out: Amounts, factor: Key -> real, doc: Key)
    requires b.Valid() && PaidUp(b, before, out, factor) && doc in b.entities
    requires OpenItemOf(b, doc).Some? && OpenItemOf(b, doc).value.field in before
    ensures OpenItemOf(b, doc).value.field in out
  {
    PaidUpOf(b, before, out, factor, doc);
    OpenItemKinds(b, doc);
    if IsPayer(doc.kind) {
      UnappliedWritten(b, before, out, doc, factor(doc));
    } else {
      BalanceWritten(b, before, out, doc, factor(doc));
    }
  }

  lemma UnappliedWritten(b: Book, before: Amounts, out: Amounts, doc: Key, f: real)
    requires PayerEq(b, before, out, doc, f) && Head(doc, UnappliedAmt) in before
    ensures Head(doc, UnappliedAmt) in out
  {}

  lemma BalanceWritten(b: Book, before: Amounts, out: Amounts, doc: Key, f: real)
    requires BalanceEq(b, before, out, doc, f) && Head(doc, Balance) in before
    ensures Head(doc, Balance) in out
  {}

  lemma SettledTotalWritten(b: Book, before: Amounts, out: Amounts, factor: Key -> real, t: Key)
    requires b.Valid() && PaidUp(b, before, out, factor) && t in b.entities
    requires IsSettled(t.kind) && Head(t, TotalAmt) in before
    ensures Head(t, TotalAmt) in out
  {
    PaidUpOf(b, before, out, factor, t);
  }

  lemma SettledNow(b: Book, before: Amounts, out: Amounts, factor: Key -> real)
    requires b.Valid() && PaidUp(b, before, out, factor)
    ensures SettledWritten(b, before, out) && OpenWritten(b, before, out)
  {
    forall t | t in b.entities && IsSettled(t.kind) && Head(t, TotalAmt) in before ensures Head(t, TotalAmt) in out {
      SettledTotalWritten(b, before, out, factor, t);
    }
    forall doc | doc in b.entities && OpenItemOf(b, doc).Some? && OpenItemOf(b, doc).value.field in before
      ensures OpenItemOf(b, doc).value.field in out
    {
      OpenItemWritten(b, before, out, factor, doc);
    }
  }

  lemma DepositsNext(b: Book, before: Amounts, was: Amounts, out: Amounts, factor: Key -> real, i: nat)
    requires b.Valid() && i < |b.keys| && Grew(before, was, out)
    requires PaidUp(b, before, was, factor) && DepositsEq(b, before, was, factor, i)
    requires UpTo(b, before, was, 4) && Within1(b, before, was, 4, i)
    requires forall fld :: fld in out && fld !in was ==> Stage(b, before, fld) == 4 && fld.key == b.keys[i]
    requires b.keys[i].kind.Deposit? ==> DepositEq(b, before, out, b.keys[i], factor(b.keys[i]))
    ensures PaidUp(b, before, out, factor) && DepositsEq(b, before, out, factor, i + 1)
    ensures UpTo(b, before, out, 4) && Within1(b, before, out, 4, i + 1)
  {
    PrefixNext(b, i);
    PaidUpStays(b, before, was, out, factor);
    DepositsStay(b, before, was, out, factor, i);
  }

  lemma DepositUnwritten(b: Book, before: Amounts, out: Amounts, i: nat)
    requires b.Valid() && i < |b.keys| && b.keys[i].kind.Deposit?
    requires UpTo(b, before, out, 4) && Within1(b, before, out, 4, i)
    ensures forall fld :: fld in out ==> !(Stage(b, before, fld) == 4 && fld.key == b.keys[i])
    ensures forall fld :: fld in out ==> !(fld.LineAmount? && fld.key == b.keys[i])
  {
    Unstarted(b, before, out, 4, i);
    forall fld | fld in out && fld.LineAmount? ensures fld.key != b.keys[i] {
      assert Stage(b, before, fld) <= 4;
    }
  }

  lemma PlaceOf(b: Book, i: nat)
    requires b.Valid() && i < |b.keys|
    ensures Place(b, b.keys[i]) == i
  {}

  lemma PlaceBefore(b: Book, t: Key, i: nat)
    requires b.Valid() && i <= |b.keys|
    ensures t in b.keys[..i] <==> Place(b, t) < i
  {
    if t in b.keys[..i] {
      var j :| 0 <= j < i && b.keys[j] == t;
      PlaceOf(b, j);
    }
  }

  /** When a deposit's turn comes, the totals of what was settled and of the deposits before it are written, and no
      others. */
  lemma TotalsNow(b: Book, before: Amounts, out: Amounts, factor: Key -> real, i: nat)
    requires b.Valid() && i < |b.keys| && UpTo(b, before, out, 4) && Within1(b, before, out, 4, i)
    requires PaidUp(b, before, out, factor) && DepositsEq(b, before, out, factor, i)
    ensures TotalsBefore(b, before, out, b.keys[i])
  {
    PlaceOf(b, i);
    forall t | t in b.entities && Head(t, TotalAmt) in before
      ensures Head(t, TotalAmt) in out <==> ScrubbedBefore(b, t, b.keys[i])
    {
      if IsSettled(t.kind) {
        SettledTotalWritten(b, before, out, factor, t);
      } else {
        PlaceBefore(b, t, i);
        OtherTotal(b, before, out, factor, t, i);
      }
    }
  }

  lemma OtherTotal(b: Book, before: Amounts, out: Amounts, factor: Key -> real, t: Key, i: nat)
    requires i < |b.keys| && UpTo(b, before, out, 4) && Within1(b, before, out, 4, i)
    requires DepositsEq(b, before, out, factor, i) && !IsSettled(t.kind) && Head(t, TotalAmt) in before
    ensures Head(t, TotalAmt) in out <==> t.kind.Deposit? && t in b.keys[..i]
  {
    if t.kind.Deposit? {
      assert Stage(b, before, Head(t, TotalAmt)) == 4;
      if t in b.keys[..i] { assert DepositEq(b, before, out, t, factor(t)); }
    } else {
      assert Stage(b, before, Head(t, TotalAmt)) == REST;
    }
  }

  // ---- Contacts ----

  lemma ContactUnwritten(b: Book, before: Amounts, out: Amounts, i: nat)
    requires b.Valid() && i < |b.keys| && (b.keys[i].kind.Customer? || b.keys[i].kind.Vendor?)
    requires UpTo(b, before, out, 5) && Within1(b, before, out, 5, i)
    ensures Head(b.keys[i], Balance) !in out && Stage(b, before, Head(b.keys[i], Balance)) == 5
  {
    Unstarted(b, before, out, 5, i);
  }

  lemma ContactsNext(b: Book, before: Amounts, was: Amounts, out: Amounts, factor: Key -> real, i: nat)
    requires b.Valid() && i < |b.keys| && Grew(before, was, out)
    requires PaidUp(b, before, was, factor) && DepositsEq(b, before, was, factor, |b.keys|)
    requires ContactsEq(b, before, was, factor, i)
    requires UpTo(b, before, was, 5) && Within1(b, before, was, 5, i)
    requires forall fld :: fld in out && fld !in was ==> fld == Head(b.keys[i], Balance) && Stage(b, before, fld) == 5
    requires b.keys[i].kind.Customer? || b.keys[i].kind.Vendor? ==>
        ContactEq(b, before, out, b.keys[i], factor(b.keys[i]))
    ensures PaidUp(b, before, out, factor) && DepositsEq(b, before, out, factor, |b.keys|)
    ensures ContactsEq(b, before, out, factor, i + 1)
    ensures UpTo(b, before, out, 5) && Within1(b, before, out, 5, i + 1)
  {
    PrefixNext(b, i);
    SettledNow(b, before, was, factor);
    PaidUpStays(b, before, was, out, factor);
    DepositsStay(b, before, was, out, factor, |b.keys|);
    ContactsStay(b, before, was, out, factor, i);
  }

  /** The first five stages are complete. */
  ghost predicate Settled(b: Book, before: Amounts, out: Amounts, factor: Key -> real) {
    && PaidUp(b, before, out, factor)
    && DepositsEq(b, before, out, factor, |b.keys|)
    && ContactsEq(b, before, out, factor, |b.keys|)
  }

  lemma SettledStays(b: Book, before: Amounts, was: Amounts, out: Amounts, factor: Key -> real)
    requires b.Valid() && Grew(before, was, out) && Settled(b, before, was, factor)
    ensures Settled(b, before, out, factor)
  {
    SettledNow(b, before, was, factor);
    PaidUpStays(b, before, was, out, factor);
    DepositsStay(b, before, was, out, factor, |b.keys|);
    ContactsStay(b, before, was, out, factor, |b.keys|);
  }

  // ---- Rollups ----

  lemma OnlyRollupNext(start: Amounts, was: Amounts, out: Amounts, t: Rollup)
    requires OnlyRollup(start, was, t) && OnlyRollup(was, out, t)
    requires forall fld :: fld in start ==> !IsTotal(t, fld)
    ensures OnlyRollup(start, out, t)
  {}

  ghost predicate RollDone(b: Book, before: Amounts, out: Amounts, t: Rollup, k: Key, f: real, trees: bool) {
    && (t == ACCOUNTS ==> LeafEq(before, out, Head(k, t.own), f))
    && (Head(k, t.total) in before ==> Head(k, t.total) in out && Whole(out[Head(k, t.total)]))
    && (trees ==> RollupDone(b, before, out, t, k, f))
  }

  /** Every entity of the kind is rolled up. */
  ghost predicate RollsDone(b: Book, before: Amounts, out: Amounts, t: Rollup, factor: Key -> real, trees: bool) {
    forall k :: k in b.entities && k.kind == t.kind ==> RollDone(b, before, out, t, k, factor(k), trees)
  }

  lemma RollsStay(b: Book, before: Amounts, was: Amounts, out: Amounts, t: Rollup, factor: Key -> real, trees: bool)
    requires Grew(before, was, out) && RollsDone(b, before, was, t, factor, trees)
    ensures RollsDone(b, before, out, t, factor, trees)
  {
    forall k | k in b.entities && k.kind == t.kind ensures RollDone(b, before, out, t, k, factor(k), trees) {
      assert RollDone(b, before, was, t, k, factor(k), trees);
      if trees { RollupStable(b, before, was, out, t, k, factor(k)); }
    }
  }

  ghost predicate VisitedUpTo(b: Book, t: Rollup, done: map<Key, Pair>, n: nat)
    requires n <= |b.keys|
  {
    forall j :: 0 <= j < n && b.keys[j].kind == t.kind ==> b.keys[j] in done
  }

  lemma VisitedNext(b: Book, t: Rollup, done: map<Key, Pair>, done': map<Key, Pair>, i: nat)
    requires i < |b.keys| && VisitedUpTo(b, t, done, i) && DoneGrows(done, done')
    requires b.keys[i].kind == t.kind ==> b.keys[i] in done'
    ensures VisitedUpTo(b, t, done', i + 1)
  {}

  lemma RollComplete(b: Book, before: Amounts, out: Amounts, t: Rollup, k: Key, done: map<Key, Pair>,
                     factor: Key -> real, trees: bool)
    requires k in b.entities && k.kind == t.kind && k in done && IsRollup(t)
    requires OwnsReady(b, before, out, t, factor) && TotalsWhole(out, t, done) && DoneWritten(before, out, t, done)
    requires trees ==> VisitDone(b, before, out, t, k, done[k], factor(k))
    ensures RollDone(b, before, out, t, k, factor(k), trees)
  {
    assert IsTotal(t, Head(k, t.total));
    if Head(k, t.total) in before { assert Whole(out[Head(k, t.total)]); }
  }

  lemma Visited(b: Book, t: Rollup, done: map<Key, Pair>, k: Key)
    requires b.Valid() && VisitedUpTo(b, t, done, |b.keys|) && k in b.entities && k.kind == t.kind
    ensures k in done
  {
    assert k in b.keys;
    var j :| 0 <= j < |b.keys| && b.keys[j] == k;
  }

  /** A visit of every entity finishes the rollup. */
  lemma RollsComplete(b: Book, before: Amounts, out: Amounts, t: Rollup, done: map<Key, Pair>, factor: Key -> real,
                      trees: bool, once: bool)
    requires RollReady(b, before, out, t, done, factor, trees, once) && VisitedUpTo(b, t, done, |b.keys|)
    ensures RollsDone(b, before, out, t, factor, trees)
  {
    forall k | k in b.entities && k.kind == t.kind ensures RollDone(b, before, out, t, k, factor(k), trees) {
      Visited(b, t, done, k);
      RollComplete(b, before, out, t, k, done, factor, trees);
    }
  }

  lemma HeightNow(b: Book, k: Key, trees: bool, once: bool) returns (h: nat)
    requires b.Valid() && k in b.entities && (trees ==> once && Forest(b, k.kind)) && (once ==> Grounded(b, k.kind))
    ensures (once ==> HasHeight(b, k, h)) && (trees ==> h <= MAX_DEPTH)
  {
    h := 0;
    if trees {
      h := Height(b, k, MAX_DEPTH);
    } else if once {
      GroundedEnds(b, k);
      var n: nat :| Within(b, k, n);
      h := Height(b, k, n);
    }
  }

  // ---- Everything left ----

  /** Every figure of an earlier stage is written. */
  ghost predicate StagesWritten(b: Book, before: Amounts, out: Amounts) {
    forall fld :: fld in before && Stage(b, before, fld) < REST ==> fld in out
  }

  ghost predicate RestOf(b: Book, before: Amounts, out: Amounts, k: Key, f: real) {
    forall fld :: fld in before && fld.key == k && Stage(b, before, fld) == REST ==> RestEq(b, before, out, fld, f)
  }

  lemma RestStays(b: Book, before: Amounts, was: Amounts, out: Amounts, fld: Field, f: real)
    requires fld in before && Grew(before, was, out) && StagesWritten(b, before, was) && RestEq(b, before, was, fld, f)
    ensures RestEq(b, before, out, fld, f)
  {}

  lemma RestOfStays(b: Book, before: Amounts, was: Amounts, out: Amounts, k: Key, f: real)
    requires Grew(before, was, out) && StagesWritten(b, before, was) && RestOf(b, before, was, k, f)
    ensures RestOf(b, before, out, k, f)
  {
    forall fld | fld in before && fld.key == k && Stage(b, before, fld) == REST ensures RestEq(b, before, out, fld, f) {
      RestStays(b, before, was, out, fld, f);
    }
  }

  ghost predicate RestsEq(b: Book, before: Amounts, out: Amounts, factor: Key -> real, n: nat)
    requires n <= |b.keys|
  {
    forall k :: k in b.keys[..n] ==> RestOf(b, before, out, k, factor(k))
  }

  lemma RestsNext(b: Book, before: Amounts, was: Amounts, out: Amounts, factor: Key -> real, i: nat)
    requires b.Valid() && i < |b.keys| && Grew(before, was, out) && StagesWritten(b, before, was)
    requires RestsEq(b, before, was, factor, i) && RestOf(b, before, out, b.keys[i], factor(b.keys[i]))
    ensures RestsEq(b, before, out, factor, i + 1)
  {
    PrefixNext(b, i);
    forall k | k in b.keys[..i] ensures RestOf(b, before, out, k, factor(k)) {
      RestOfStays(b, before, was, out, k, factor(k));
    }
  }

  ghost predicate NewOnRest(b: Book, before: Amounts, start: Amounts, out: Amounts, k: Key) {
    forall fld :: fld in out && fld !in start ==> Stage(b, before, fld) == REST && fld.key == k
  }

  lemma HomesNew(b: Book, before: Amounts, start: Amounts, out: Amounts, k: Key)
    requires forall fld :: fld in out && fld !in start ==> fld == Head(k, HomeBalance) || fld == Head(k, HomeTotalAmt)
    ensures NewOnRest(b, before, start, out, k)
  {}

  /** Every figure of an entity. */
  function FieldsOf(before: Amounts, k: Key): set<Field> { set fld | fld in before && fld.key == k }

  ghost predicate HomesDone(b: Book, before: Amounts, out: Amounts, k: Key, f: real) {
    forall fld :: fld in before && fld.key == k && IsHome(b, before, fld) ==> RestEq(b, before, out, fld, f)
  }

  ghost predicate HomesWritten(b: Book, before: Amounts, out: Amounts, k: Key) {
    forall fld :: fld in before && fld.key == k && IsHome(b, before, fld) ==> fld in out
  }

  /** Of the figures left, those written or no longer to do satisfy their equation. */
  ghost predicate RestExcept(b: Book, before: Amounts, out: Amounts, k: Key, todo: set<Field>, f: real) {
    forall fld :: fld in before && fld.key == k && Stage(b, before, fld) == REST && (fld in todo ==> fld in out) ==>
      RestEq(b, before, out, fld, f)
  }

  lemma RestStarts(b: Book, before: Amounts, start: Amounts, out: Amounts, k: Key, f: real)
    requires HomesDone(b, before, out, k, f)
    requires forall fld :: fld in start && Stage(b, before, fld) == REST ==> fld.key != k
    requires forall fld :: fld in out && fld !in start ==> IsHome(b, before, fld)
    ensures RestExcept(b, before, out, k, FieldsOf(before, k), f)
    ensures HomesWritten(b, before, out, k)
  {}

  lemma RestExceptNext(b: Book, before: Amounts, was: Amounts, out: Amounts, k: Key, todo: set<Field>, fld: Field,
                       f: real)
    requires fld in todo && fld in before && fld.key == k && Grew(before, was, out) && StagesWritten(b, before, was)
    requires RestExcept(b, before, was, k, todo, f)
    requires forall other :: other in out && other !in was ==> other == fld
    requires fld in out && (fld !in was ==> RestEq(b, before, out, fld, f))
    ensures RestExcept(b, before, out, k, todo - {fld}, f)
  {
    forall other | other in before && other.key == k && Stage(b, before, other) == REST &&
        (other in todo - {fld} ==> other in out)
      ensures RestEq(b, before, out, other, f)
    {
      if other != fld || fld in was { RestStays(b, before, was, out, other, f); }
    }
  }

  // ---- From stage to stage ----

  lemma SettledOf(b: Book, before: Amounts, out: Amounts, factor: Key -> real, k: Key)
    requires b.Valid() && k in b.entities && Settled(b, before, out, factor)
    ensures DocEq(b, before, out, k, factor(k))
    ensures IsLineDoc(k.kind) ==> BalanceEq(b, before, out, k, factor(k))
    ensures IsPayer(k.kind) ==> PayerEq(b, before, out, k, factor(k))
    ensures k.kind.Deposit? ==> DepositEq(b, before, out, k, factor(k))
    ensures k.kind.Customer? || k.kind.Vendor? ==> ContactEq(b, before, out, k, factor(k))
  {
    assert k in b.keys[..|b.keys|];
  }

  /** A document's part of its contact's balance is whole cents. */
  lemma OpenItemWhole(b: Book, before: Amounts, out: Amounts, factor: Key -> real, doc: Key)
    requires b.Valid() && doc in b.entities && out.Keys <= before.Keys && OpenItemOf(b, doc).Some?
    requires DocEq(b, before, out, doc, factor(doc))
    requires IsLineDoc(doc.kind) ==> BalanceEq(b, before, out, doc, factor(doc))
    requires IsPayer(doc.kind) ==> PayerEq(b, before, out, doc, factor(doc))
    ensures WholeAt(out, OpenItemOf(b, doc).value.field)
  {
    if IsLineDoc(doc.kind) {
      TotalWhole(b, before, out, doc, factor(doc));
      BalanceWhole(b, before, out, doc, factor(doc));
    } else {
      UnappliedWhole(b, before, out, doc, factor(doc));
    }
    OpenFigure(b, doc);
  }

  lemma UnappliedWhole(b: Book, before: Amounts, out: Amounts, k: Key, f: real)
    requires out.Keys <= before.Keys && (IsPayer(k.kind) ==> PayerEq(b, before, out, k, f))
    ensures IsPayer(k.kind) ==> WholeAt(out, Head(k, UnappliedAmt))
  {
    if IsPayer(k.kind) && Head(k, UnappliedAmt) in before { LeafWhole(before, out, Head(k, UnappliedAmt), f); }
  }

  /** A document is open by its balance, and a payment by what is unapplied. */
  lemma OpenFigure(b: Book, doc: Key)
    requires OpenItemOf(b, doc).Some?
    ensures OpenItemOf(b, doc).value.field == Head(doc, if IsLineDoc(doc.kind) then Balance else UnappliedAmt)
    ensures IsLineDoc(doc.kind) || IsPayer(doc.kind)
  {}

  lemma ContactBalanceWhole(b: Book, before: Amounts, out: Amounts, factor: Key -> real, c: Key)
    requires b.Valid() && c in b.entities && (c.kind.Customer? || c.kind.Vendor?)
    requires out.Keys <= before.Keys && Settled(b, before, out, factor)
    ensures WholeAt(out, Head(c, Balance)) && (Head(c, Balance) in before ==> Head(c, Balance) in out)
  {
    forall doc | doc in b.entities && OpenItemOf(b, doc).Some? ensures WholeAt(out, OpenItemOf(b, doc).value.field) {
      SettledOf(b, before, out, factor, doc);
      OpenItemWhole(b, before, out, factor, doc);
    }
    SettledOf(b, before, out, factor, c);
    ContactWhole(b, before, out, c, factor(c));
  }

  lemma CustomersReady(b: Book, before: Amounts, out: Amounts, factor: Key -> real)
    requires b.Valid() && out.Keys <= before.Keys && Settled(b, before, out, factor) && UpTo(b, before, out, 5)
    ensures OwnsReady(b, before, out, CUSTOMERS, factor)
    ensures forall fld :: fld in out ==> !IsTotal(CUSTOMERS, fld)
  {
    forall c | c in b.entities && c.kind.Customer? && Head(c, Balance) in before
      ensures Head(c, Balance) in out && Whole(out[Head(c, Balance)])
    {
      ContactBalanceWhole(b, before, out, factor, c);
    }
    forall fld | fld in out ensures !IsTotal(CUSTOMERS, fld) {
      assert Stage(b, before, fld) <= 5;
    }
  }

  lemma AccountsReady(b: Book, before: Amounts, was: Amounts, out: Amounts, factor: Key -> real)
    requires UpTo(b, before, was, 5) && OnlyRollup(was, out, CUSTOMERS)
    ensures OwnsReady(b, before, out, ACCOUNTS, factor)
    ensures forall fld :: fld in out ==> !IsTotal(ACCOUNTS, fld)
  {
    forall fld | fld in out ensures !IsTotal(ACCOUNTS, fld) && !IsOwn(ACCOUNTS, fld) {
      if fld in was { assert Stage(b, before, fld) <= 5; }
    }
    forall c | c in b.entities && c.kind.Account? ensures Head(c, CurrentBalance) !in out {
      assert IsOwn(ACCOUNTS, Head(c, CurrentBalance));
    }
  }

  lemma RollupUpTo(b: Book, before: Amounts, was: Amounts, out: Amounts, t: Rollup)
    requires UpTo(b, before, was, 6) && IsRollup(t) && OnlyRollup(was, out, t)
    ensures UpTo(b, before, out, 6)
  {
    forall fld | fld in out && fld !in was ensures Stage(b, before, fld) <= 6 {}
  }

  /** The first six stages are complete. */
  ghost predicate AllStages(b: Book, before: Amounts, out: Amounts, factor: Key -> real, customers: bool,
                            accounts: bool) {
    && Settled(b, before, out, factor)
    && RollsDone(b, before, out, CUSTOMERS, factor, customers)
    && RollsDone(b, before, out, ACCOUNTS, factor, accounts)
  }

  /** The customers' rollup stays as it is through the accounts'. */
  lemma BothRolledUp(b: Book, before: Amounts, start: Amounts, mid: Amounts, out: Amounts, factor: Key -> real,
                     customers: bool, accounts: bool)
    requires b.Valid() && Grew(before, mid, out) && Settled(b, before, mid, factor) && UpTo(b, before, start, 5)
    requires OnlyRollup(start, mid, CUSTOMERS) && OnlyRollup(mid, out, ACCOUNTS)
    requires RollsDone(b, before, mid, CUSTOMERS, factor, customers)
    requires RollsDone(b, before, out, ACCOUNTS, factor, accounts)
    ensures AllStages(b, before, out, factor, customers, accounts) && UpTo(b, before, out, 6)
  {
    SettledStays(b, before, mid, out, factor);
    RollsStay(b, before, mid, out, CUSTOMERS, factor, customers);
    RollupUpTo(b, before, start, mid, CUSTOMERS);
    RollupUpTo(b, before, mid, out, ACCOUNTS);
  }

  lemma AllStagesStay(b: Book, before: Amounts, was: Amounts, out: Amounts, factor: Key -> real, customers: bool,
                      accounts: bool)
    requires b.Valid() && Grew(before, was, out) && AllStages(b, before, was, factor, customers, accounts)
    ensures AllStages(b, before, out, factor, customers, accounts)
  {
    SettledStays(b, before, was, out, factor);
    RollsStay(b, before, was, out, CUSTOMERS, factor, customers);
    RollsStay(b, before, was, out, ACCOUNTS, factor, accounts);
  }

  lemma EntitiesDone(b: Book, before: Amounts, out: Amounts, factor: Key -> real)
    requires b.Valid() && Settled(b, before, out, factor)
    ensures EntitiesEq(b, before, out, factor)
  {
    forall k | k in b.entities ensures EntityEq(b, before, out, k, factor(k)) {
      SettledOf(b, before, out, factor, k);
    }
  }

  lemma TreesDone(b: Book, before: Amounts, out: Amounts, t: Rollup, factor: Key -> real, trees: bool)
    requires RollsDone(b, before, out, t, factor, trees) && (Forest(b, t.kind) ==> trees)
    ensures TreesEq(b, before, out, t, factor)
  {
    forall k | k in b.entities && k.kind == t.kind ensures RolledUp(b, before, out, t, k, factor(k)) {
      assert RollDone(b, before, out, t, k, factor(k), trees);
    }
  }

  // ---- Every figure of an earlier stage is written by its equation ----

  lemma LineDocWrites(b: Book, before: Amounts, out: Amounts, k: Key, f: real, fld: Field)
    requires fld in before && fld.key == k && Stage(b, before, fld) == 1 && IsLineDoc(k.kind)
    requires LineDocEq(b, before, out, k, f)
    ensures fld in out
  {
    if fld.LineAmount? || fld.LinePrice? || fld.SubAmount? || fld.SubPrice? {
      assert LeafLineEq(b, before, out, k, fld.line, f) && SummaryLineEq(b, before, out, k, fld.line, f);
      if fld.SubAmount? || fld.SubPrice? { assert SubEq(b, before, out, k, fld.line, fld.sub, f); }
    } else if fld.TaxBase? || fld.TaxAmount? {
      assert TaxLineEq(b, before, out, k, fld.line, f);
    }
  }

  lemma DepositWrites(b: Book, before: Amounts, out: Amounts, k: Key, f: real, fld: Field)
    requires fld in before && fld.key == k && Stage(b, before, fld) == 4 && k.kind.Deposit?
    requires DepositEq(b, before, out, k, f)
    ensures fld in out
  {
    if fld.LineAmount? { assert DepositLineEq(b, before, out, k, fld.line, f); }
  }

  lemma PayerWrites(b: Book, before: Amounts, out: Amounts, k: Key, f: real, fld: Field)
    requires fld in before && fld.key == k && Stage(b, before, fld) <= 3 && IsPayer(k.kind)
    requires PayerEq(b, before, out, k, f)
    ensures fld in out
  {
    if fld.LineAmount? { assert fld.line < |b.Lines(k)|; }
  }

  lemma TreeWrites(b: Book, before: Amounts, out: Amounts, t: Rollup, factor: Key -> real, trees: bool, fld: Field)
    requires fld in before && Stage(b, before, fld) == 6 && fld.key in b.entities && fld.key.kind == t.kind &&
        IsRollup(t)
    requires RollsDone(b, before, out, t, factor, trees)
    ensures fld in out
  {
    assert RollDone(b, before, out, t, fld.key, factor(fld.key), trees);
  }

  lemma DocWrites(b: Book, before: Amounts, out: Amounts, k: Key, f: real, fld: Field)
    requires LineDocEq(b, before, out, k, f) && BalanceEq(b, before, out, k, f) && IsLineDoc(k.kind)
    requires fld in before && fld.key == k && Stage(b, before, fld) <= 5
    ensures fld in out
  {
    if Stage(b, before, fld) == 1 { LineDocWrites(b, before, out, k, f, fld); }
  }

  lemma OtherWrites(b: Book, before: Amounts, out: Amounts, k: Key, f: real, fld: Field)
    requires EntityEq(b, before, out, k, f) && !IsPayer(k.kind) && !k.kind.Deposit? && !IsLineDoc(k.kind)
    requires fld in before && fld.key == k && Stage(b, before, fld) <= 5
    ensures fld in out
  {}

  /** The kinds whose figures the first five stages write. */
  lemma EarlyWrites(b: Book, before: Amounts, out: Amounts, k: Key, f: real, fld: Field)
    requires EntityEq(b, before, out, k, f) && k in b.entities
    requires fld in before && fld.key == k && Stage(b, before, fld) <= 5
    ensures fld in out
  {
    if IsPayer(k.kind) {
      PayerWrites(b, before, out, k, f, fld);
    } else if k.kind.Deposit? {
      DepositWrites(b, before, out, k, f, fld);
    } else if IsLineDoc(k.kind) {
      DocWrites(b, before, out, k, f, fld);
    } else {
      OtherWrites(b, before, out, k, f, fld);
    }
  }

  lemma LateWrites(b: Book, before: Amounts, out: Amounts, factor: Key -> real, customers: bool, accounts: bool,
                   fld: Field)
    requires RollsDone(b, before, out, CUSTOMERS, factor, customers) &&
        RollsDone(b, before, out, ACCOUNTS, factor, accounts)
    requires fld in before && fld.key in b.entities && Stage(b, before, fld) == 6
    ensures fld in out
  {
    if fld.key.kind.Customer? {
      TreeWrites(b, before, out, CUSTOMERS, factor, customers, fld);
    } else {
      TreeWrites(b, before, out, ACCOUNTS, factor, accounts, fld);
    }
  }

  lemma AllWritten(b: Book, before: Amounts, out: Amounts, factor: Key -> real, customers: bool, accounts: bool)
    requires EntitiesEq(b, before, out, factor)
    requires RollsDone(b, before, out, CUSTOMERS, factor, customers) &&
        RollsDone(b, before, out, ACCOUNTS, factor, accounts)
    requires forall fld :: fld in before ==> fld.key in b.entities
    ensures StagesWritten(b, before, out)
  {
    forall fld | fld in before && Stage(b, before, fld) < REST ensures fld in out {
      var s := Stage(b, before, fld);
      if s <= 5 {
        assert EntityEq(b, before, out, fld.key, factor(fld.key));
        EarlyWrites(b, before, out, fld.key, factor(fld.key), fld);
      } else {
        LateWrites(b, before, out, factor, customers, accounts, fld);
      }
    }
  }

  lemma StagesDone(b: Book, before: Amounts, out: Amounts, factor: Key -> real, customers: bool, accounts: bool)
    requires b.Valid() && AllStages(b, before, out, factor, customers, accounts)
    requires forall fld :: fld in before ==> fld.key in b.entities
    ensures EntitiesEq(b, before, out, factor)
    ensures StagesWritten(b, before, out)
  {
    EntitiesDone(b, before, out, factor);
    AllWritten(b, before, out, factor, customers, accounts);
  }

  lemma LeftOversDone(b: Book, before: Amounts, out: Amounts, factor: Key -> real)
    requires b.Valid() && out.Keys <= before.Keys && forall fld :: fld in before ==> fld.key in b.entities
    requires StagesWritten(b, before, out) && RestsEq(b, before, out, factor, |b.keys|)
    ensures LeftOversEq(b, before, out, factor) && out.Keys == before.Keys
  {
    forall fld | fld in before
      ensures fld in out
      ensures Stage(b, before, fld) == REST ==> RestEq(b, before, out, fld, factor(fld.key))
    {
      StageBound(b, before, fld);
      if Stage(b, before, fld) == REST {
        assert fld.key in b.keys[..|b.keys|];
        assert RestOf(b, before, out, fld.key, factor(fld.key));
      }
    }
  }

  lemma TreeDone(b: Book, before: Amounts, out: Amounts, kind: Kind, own: HeadName, total: HeadName,
                 factor: Key -> real)
    requires RollsDone(b, before, out, Rollup(kind, own, total), factor, Forest(b, kind))
    ensures TreesEq(b, before, out, Rollup(kind, own, total), factor)
  {
    TreesDone(b, before, out, Rollup(kind, own, total), factor, Forest(b, kind));
  }

  lemma RestDone(b: Book, before: Amounts, out: Amounts, factor: Key -> real, customers: bool, accounts: bool)
    requires b.Valid() && out.Keys <= before.Keys && forall fld :: fld in before ==> fld.key in b.entities
    requires AllStages(b, before, out, factor, customers, accounts) && RestsEq(b, before, out, factor, |b.keys|)
    ensures EntitiesEq(b, before, out, factor) && LeftOversEq(b, before, out, factor) && out.Keys == before.Keys
  {
    StagesDone(b, before, out, factor, customers, accounts);
    LeftOversDone(b, before, out, factor);
  }

  /** When every stage is through, every figure is written and every equation holds. */
  lemma RunDone(b: Book, before: Amounts, out: Amounts, factor: Key -> real)
    requires b.Valid() && out.Keys <= before.Keys && forall fld :: fld in before ==> fld.key in b.entities
    requires AllStages(b, before, out, factor, Forest(b, Customer), Forest(b, Account))
    requires RestsEq(b, before, out, factor, |b.keys|)
    ensures Scrubbed(b, before, out, factor)
  {
    TreeDone(b, before, out, Customer, Balance, BalanceWithJobs, factor);
    TreeDone(b, before, out, Account, CurrentBalance, CurrentBalanceWithSubAccounts, factor);
    RestDone(b, before, out, factor, Forest(b, Customer), Forest(b, Account));
  }

  ghost predicate RestWithin(b: Book, before: Amounts, out: Amounts, n: nat)
    requires n <= |b.keys|
  {
    forall fld :: fld in out && Stage(b, before, fld) == REST ==> fld.key in b.keys[..n]
  }

  lemma RestUnstarted(b: Book, before: Amounts, out: Amounts, i: nat)
    requires b.Valid() && i < |b.keys| && RestWithin(b, before, out, i)
    ensures forall fld :: fld in out && Stage(b, before, fld) == REST ==> fld.key != b.keys[i]
  {
    PrefixNext(b, i);
  }

  lemma RestWithinNext(b: Book, before: Amounts, was: Amounts, out: Amounts, i: nat)
    requires b.Valid() && i < |b.keys| && RestWithin(b, before, was, i) && NewOnRest(b, before, was, out, b.keys[i])
    ensures RestWithin(b, before, out, i + 1)
  {
    PrefixNext(b, i);
  }
}
