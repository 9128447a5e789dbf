/** Deposits and the totals they bring: what they will be, and exactly when scrubbing keeps the rules about them. A line
    of a deposit follows the total it brings as that stands when the deposit's turn comes, and by then only documents,
    journals, payments and the deposits before it have new totals. */
module ScrubDeposits {
  import opened Cents
  import opened Wrappers
  import opened FixtureBook
  import opened FixtureRules
  import opened ScrubSpec
  import opened ScrubForecast
  import opened ScrubSteps
  import opened ScrubStages
  import opened ScrubWhole
  import opened ScrubLines
  import Allocate

  // ---- The forecast ----

  function JournalTotalNew(b: Book, before: Amounts, factor: Key -> real, k: Key): real {
    var debits := Sum(JournalSide(b, before.Keys, before, k, Debit));
    DerivedNew(before, Head(k, TotalAmt), DebitNew(debits, factor(k)), debits, factor(k))
  }

  function RefPlace(refs: seq<LineRef>, r: LineRef): (n: nat)
    ensures r in refs ==> n < |refs| && refs[n] == r
  {
    if refs == [] || refs[0] == r then 0 else 1 + RefPlace(refs[1..], r)
  }

  /** What a payer's line will apply to document `t`. */
  function ApplicationNew(b: Book, before: Amounts, factor: Key -> real, t: Key, r: LineRef): real {
    var refs := Apps(b, before.Keys, t);
    var shares := Allocate.Allocation(AppAmounts(before, refs), AppliedForecast(b, before, t, factor(t)));
    if RefPlace(refs, r) < |shares| then shares[RefPlace(refs, r)] else 0.0
  }

  function PayerLineNew(b: Book, before: Amounts, factor: Key -> real, k: Key, i: nat): real {
    if IsApplication(b, before.Keys, k, i) then
      ApplicationNew(b, before, factor, AppTarget(b, before.Keys, k, i).value, LineRef(k, i))
    else LeafNew(before, LineAmount(k, i), factor(k))
  }

  function PayerValuesNew(b: Book, before: Amounts, factor: Key -> real, k: Key): (s: seq<real>)
    ensures |s| == |b.Lines(k)|
  {
    seq(|b.Lines(k)|, i requires 0 <= i < |b.Lines(k)| =>
      Signed(PayerLineNew(b, before, factor, k, i), UsesCredit(b, k, i)))
  }

  function PayerTotalNew(b: Book, before: Amounts, factor: Key -> real, k: Key): real {
    DerivedNew(before, Head(k, TotalAmt),
      Sum(PayerValuesNew(b, before, factor, k)) + LeafNew(before, Head(k, UnappliedAmt), factor(k)),
      Sum(PayerValues(b, before, k)) + Get(before, Head(k, UnappliedAmt)), factor(k))
  }

  /** The total of anything but a deposit. */
  function PlainTotalNew(b: Book, before: Amounts, factor: Key -> real, k: Key): real {
    if IsLineDoc(k.kind) then TotalNew(b, before, k, factor(k))
    else if k.kind.JournalEntry? then JournalTotalNew(b, before, factor, k)
    else if IsPayer(k.kind) then PayerTotalNew(b, before, factor, k)
    else LeafNew(before, Head(k, TotalAmt), factor(k))
  }

  /** The total a deposit's line follows: the new one if it is scrubbed before the deposit, and the old one if not. */
  function BroughtNew(b: Book, before: Amounts, factor: Key -> real, k: Key, t: Key): real
    decreases Place(b, k), 0
  {
    if !ScrubbedBefore(b, t, k) then Get(before, Head(t, TotalAmt))
    else if t.kind.Deposit? then DepositTotalNew(b, before, factor, t)
    else PlainTotalNew(b, before, factor, t)
  }

  function DepositLineNew(b: Book, before: Amounts, factor: Key -> real, k: Key, i: nat): real
    decreases Place(b, k), 1
  {
    match DepositTarget(b, before.Keys, k, i)
    case Some(t) =>
      DerivedNew(before, LineAmount(k, i), BroughtNew(b, before, factor, k, t), Get(before, Head(t, TotalAmt)),
        factor(k))
    case None => LeafNew(before, LineAmount(k, i), factor(k))
  }

  function DepositValuesNew(b: Book, before: Amounts, factor: Key -> real, k: Key): (s: seq<real>)
    ensures |s| == |b.Lines(k)|
    decreases Place(b, k), 2
  {
    seq(|b.Lines(k)|, i requires 0 <= i < |b.Lines(k)| => DepositLineNew(b, before, factor, k, i))
  }

  function DepositTotalNew(b: Book, before: Amounts, factor: Key -> real, k: Key): real
    decreases Place(b, k), 3
  {
    DerivedNew(before, Head(k, TotalAmt),
      Sum(DepositValuesNew(b, before, factor, k)) - LeafNew(before, CashBack(k), factor(k)),
      Sum(DepositValues(b, before, k)) - Get(before, CashBack(k)), factor(k))
  }

  /** Any entity's new total. */
  function AnyTotalNew(b: Book, before: Amounts, factor: Key -> real, k: Key): real {
    if k.kind.Deposit? then DepositTotalNew(b, before, factor, k) else PlainTotalNew(b, before, factor, k)
  }

  // ---- The conditions ----

  /** A line that states its amount is kept with a total scrubbed before it; otherwise the total has to come out as it
      was. */
  predicate DepositLinePreservable(b: Book, before: Amounts, factor: Key -> real, k: Key, i: nat) {
    k.kind.Deposit? && i < |b.Lines(k)| && DepositTarget(b, before.Keys, k, i).Some? ==>
      var t := DepositTarget(b, before.Keys, k, i).value;
      || (LineAmount(k, i) in before && ScrubbedBefore(b, t, k))
      || AnyTotalNew(b, before, factor, t) == Get(before, Head(t, TotalAmt))
  }

  /** A deposit's figures are whole cents when what its lines follow is. */
  predicate DepositWholePreservable(b: Book, before: Amounts, factor: Key -> real, fld: Field) {
    match fld
    case LineAmount(k, i) => i < |b.Lines(k)| ==> Whole(DepositLineNew(b, before, factor, k, i))
    case Head(k, name) => name.TotalAmt? ==> Whole(DepositTotalNew(b, before, factor, k))
    case _ => true
  }

  // ---- The forecast comes true ----

  lemma JournalTotalForeseen(b: Book, before: Amounts, after: Amounts, factor: Key -> real, k: Key)
    requires after.Keys == before.Keys && JournalEq(b, before, after, k, factor(k))
    ensures Get(after, Head(k, TotalAmt)) == JournalTotalNew(b, before, factor, k)
  {}

  lemma ApplicationForeseen(b: Book, before: Amounts, after: Amounts, factor: Key -> real, k: Key, i: nat)
    requires b.Valid() && k in b.entities && after.Keys == before.Keys && EntitiesEq(b, before, after, factor)
    requires IsApplication(b, before.Keys, k, i)
    ensures Get(after, LineAmount(k, i)) == PayerLineNew(b, before, factor, k, i)
  {
    var t := AppTarget(b, before.Keys, k, i).value;
    AppListed(b, before.Keys, k, i);
    assert EntityEq(b, before, after, t, factor(t));
    BalanceForeseen(b, before, after, t, factor(t));
    ShareForeseen(b, before, after, factor, t, LineRef(k, i));
  }

  lemma ShareForeseen(b: Book, before: Amounts, after: Amounts, factor: Key -> real, t: Key, r: LineRef)
    requires after.Keys == before.Keys && BalanceEq(b, before, after, t, factor(t))
    requires TargetApplied(b, before, after, t, factor(t)) == AppliedForecast(b, before, t, factor(t))
    requires r in Apps(b, before.Keys, t)
    ensures Get(after, LineAmount(r.payer, r.line)) == ApplicationNew(b, before, factor, t, r)
  {
    var refs := Apps(b, before.Keys, t);
    assert AppAmounts(after, refs)[RefPlace(refs, r)] == Get(after, LineAmount(r.payer, r.line));
  }

  lemma PayerTotalForeseen(b: Book, before: Amounts, after: Amounts, factor: Key -> real, k: Key)
    requires b.Valid() && k in b.entities && after.Keys == before.Keys && EntitiesEq(b, before, after, factor)
    requires IsPayer(k.kind)
    ensures Get(after, Head(k, TotalAmt)) == PayerTotalNew(b, before, factor, k)
  {
    assert EntityEq(b, before, after, k, factor(k));
    forall i: nat | i < |b.Lines(k)| ensures Get(after, LineAmount(k, i)) == PayerLineNew(b, before, factor, k, i) {
      if IsApplication(b, before.Keys, k, i) { ApplicationForeseen(b, before, after, factor, k, i); }
    }
    assert PayerValues(b, after, k) == PayerValuesNew(b, before, factor, k);
  }

  lemma PlainTotalForeseen(b: Book, before: Amounts, after: Amounts, factor: Key -> real, k: Key)
    requires b.Valid() && k in b.entities && after.Keys == before.Keys && EntitiesEq(b, before, after, factor)
    requires LeftOversEq(b, before, after, factor) && !k.kind.Deposit?
    ensures Get(after, Head(k, TotalAmt)) == PlainTotalNew(b, before, factor, k)
  {
    assert EntityEq(b, before, after, k, factor(k));
    if IsLineDoc(k.kind) {
      BaseForeseen(b, before, after, k, factor(k));
    } else if k.kind.JournalEntry? {
      JournalTotalForeseen(b, before, after, factor, k);
    } else if IsPayer(k.kind) {
      PayerTotalForeseen(b, before, after, factor, k);
    } else if Head(k, TotalAmt) in before {
      assert Stage(b, before, Head(k, TotalAmt)) == REST;
      assert RestEq(b, before, after, Head(k, TotalAmt), factor(k));
    }
  }

  /** The foreseen lines of a deposit, from the totals they follow. */
  lemma DepositLineFrom(b: Book, before: Amounts, after: Amounts, factor: Key -> real, k: Key, i: nat)
    requires after.Keys == before.Keys && i < |b.Lines(k)| && DepositLineEq(b, before, after, k, i, factor(k))
    requires DepositTarget(b, before.Keys, k, i).Some? ==>
      var t := DepositTarget(b, before.Keys, k, i).value;
      ScrubbedBefore(b, t, k) ==> Get(after, Head(t, TotalAmt)) == BroughtNew(b, before, factor, k, t)
    ensures Get(after, LineAmount(k, i)) == DepositLineNew(b, before, factor, k, i)
  {}

  lemma {:induction false} DepositForeseen(b: Book, before: Amounts, after: Amounts, factor: Key -> real, k: Key)
    requires b.Valid() && k in b.entities && after.Keys == before.Keys && EntitiesEq(b, before, after, factor)
    requires LeftOversEq(b, before, after, factor) && k.kind.Deposit?
    ensures forall i: nat :: i < |b.Lines(k)| ==>
        Get(after, LineAmount(k, i)) == DepositLineNew(b, before, factor, k, i)
    ensures Get(after, Head(k, TotalAmt)) == DepositTotalNew(b, before, factor, k)
    decreases Place(b, k)
  {
    assert EntityEq(b, before, after, k, factor(k));
    forall i: nat | i < |b.Lines(k)|
      ensures Get(after, LineAmount(k, i)) == DepositLineNew(b, before, factor, k, i)
    {
      assert DepositLineEq(b, before, after, k, i, factor(k));
      var target := DepositTarget(b, before.Keys, k, i);
      if target.Some? && ScrubbedBefore(b, target.value, k) {
        if target.value.kind.Deposit? {
          DepositForeseen(b, before, after, factor, target.value);
        } else {
          PlainTotalForeseen(b, before, after, factor, target.value);
        }
      }
      DepositLineFrom(b, before, after, factor, k, i);
    }
    assert DepositValues(b, after, k) == DepositValuesNew(b, before, factor, k);
  }

  lemma AnyTotalForeseen(b: Book, before: Amounts, after: Amounts, factor: Key -> real, k: Key)
    requires b.Valid() && k in b.entities && after.Keys == before.Keys && EntitiesEq(b, before, after, factor)
    requires LeftOversEq(b, before, after, factor)
    ensures Get(after, Head(k, TotalAmt)) == AnyTotalNew(b, before, factor, k)
  {
    if k.kind.Deposit? {
      DepositForeseen(b, before, after, factor, k);
    } else {
      PlainTotalForeseen(b, before, after, factor, k);
    }
  }

  // ---- The rules ----

  /** A deposit line that equals the total it brings does so after scrubbing exactly when its condition holds. */
  lemma DepositLineExactly(b: Book, before: Amounts, after: Amounts, factor: Key -> real, k: Key, i: nat)
    requires b.Valid() && k in b.entities && after.Keys == before.Keys && EntitiesEq(b, before, after, factor)
    requires LeftOversEq(b, before, after, factor) && CheckHolds(b, before, k, DepositLine(i))
    ensures CheckHolds(b, after, k, DepositLine(i)) <==> DepositLinePreservable(b, before, factor, k, i)
  {
    if k.kind.Deposit? && i < |b.Lines(k)| && DepositTarget(b, before.Keys, k, i).Some? {
      var t := DepositTarget(b, before.Keys, k, i).value;
      assert EntityEq(b, before, after, k, factor(k));
      assert DepositLineEq(b, before, after, k, i, factor(k));
      AnyTotalForeseen(b, before, after, factor, t);
      LineFollows(b, before, after, k, i, factor(k), t);
    }
  }

  lemma LineFollows(b: Book, before: Amounts, after: Amounts, k: Key, i: nat, f: real, t: Key)
    requires after.Keys == before.Keys && i < |b.Lines(k)| && DepositLineEq(b, before, after, k, i, f)
    requires DepositTarget(b, before.Keys, k, i) == Some(t)
    requires Get(before, LineAmount(k, i)) == before[Head(t, TotalAmt)]
    ensures Get(after, LineAmount(k, i)) == after[Head(t, TotalAmt)] <==>
            || (LineAmount(k, i) in before && ScrubbedBefore(b, t, k))
            || after[Head(t, TotalAmt)] == before[Head(t, TotalAmt)]
  {
    if LineAmount(k, i) in before {
      ZeroResidual(before[LineAmount(k, i)], after[Head(t, TotalAmt)], f);
      ZeroResidual(before[LineAmount(k, i)], before[Head(t, TotalAmt)], f);
    }
  }

  lemma DepositWholeExactly(b: Book, before: Amounts, after: Amounts, factor: Key -> real, fld: Field)
    requires b.Valid() && fld.key in b.entities && after.Keys == before.Keys && EntitiesEq(b, before, after, factor)
    requires LeftOversEq(b, before, after, factor) && fld in before && fld.key.kind.Deposit?
    requires Stage(b, before, fld) == 4
    ensures Whole(after[fld]) <==> DepositWholePreservable(b, before, factor, fld)
  {
    if fld == CashBack(fld.key) {
      CashBackWhole(b, before, after, factor, fld.key);
    } else {
      DepositForeseen(b, before, after, factor, fld.key);
    }
  }

  lemma CashBackWhole(b: Book, before: Amounts, after: Amounts, factor: Key -> real, k: Key)
    requires k in b.entities && after.Keys == before.Keys && EntitiesEq(b, before, after, factor)
    requires k.kind.Deposit? && CashBack(k) in before
    ensures Whole(after[CashBack(k)])
  {
    assert EntityEq(b, before, after, k, factor(k));
    LeafWhole(before, after, CashBack(k), factor(k));
  }
}
