/** Totals over trees of customers and accounts: what they will be, and exactly when scrubbing keeps their rule. The
    rule adds up the children that have a total; the scrubber also adds up, for a child without one, what its own
    figure and its children come to. */
module ScrubTrees {
  import opened Cents
  import opened Wrappers
  import opened FixtureBook
  import opened FixtureRules
  import opened ScrubSpec
  import opened ScrubForecast
  import opened ScrubSteps
  import opened ScrubLines

  // ---- The forecast ----

  /** The figure by which a document is open. */
  function OpenFigureNew(b: Book, before: Amounts, factor: Key -> real, item: OpenItem): real {
    var k := item.field.key;
    if item.field == Head(k, Balance) then BalanceNew(b, before, k, factor(k))
    else LeafNew(before, item.field, factor(k))
  }

  function OpenTermNew(b: Book, before: Amounts, factor: Key -> real, doc: Key, contact: Key): real {
    match OpenItemOf(b, doc)
    case Some(item) =>
      if item.contact == contact then Signed(OpenFigureNew(b, before, factor, item), item.negative) else 0.0
    case None => 0.0
  }

  function OpenTermsNew(b: Book, before: Amounts, factor: Key -> real, contact: Key): (s: seq<real>)
    ensures |s| == |b.keys|
  {
    seq(|b.keys|, j requires 0 <= j < |b.keys| => OpenTermNew(b, before, factor, b.keys[j], contact))
  }

  function ContactNew(b: Book, before: Amounts, factor: Key -> real, k: Key): real {
    DerivedNew(before, Head(k, Balance), Sum(OpenTermsNew(b, before, factor, k)), Sum(OpenTerms(b, before, k)),
      factor(k))
  }

  /** An entity's own figure: a contact's open balance, or an account's. */
  function OwnNew(b: Book, before: Amounts, factor: Key -> real, t: Rollup, k: Key): real {
    if t == CUSTOMERS then ContactNew(b, before, factor, k) else LeafNew(before, Head(k, t.own), factor(k))
  }

  /** What an entity will hand up. */
  function CarriedNew(b: Book, before: Amounts, factor: Key -> real, t: Rollup, k: Key, n: nat): real
    decreases n, 0, |b.keys|
  {
    var newFormula := OwnNew(b, before, factor, t, k)
        + (if n == 0 then 0.0 else Sum(CarriedUpNew(b, before, factor, t, k, n - 1)));
    var oldFormula := Get(before, Head(k, t.own))
        + (if n == 0 then 0.0 else Sum(CarriedUp(b, before.Keys, before, t, k, n - 1)));
    if Head(k, t.total) in before then Derived(before[Head(k, t.total)], newFormula, oldFormula, factor(k))
    else newFormula
  }

  function CarriedUpNew(b: Book, before: Amounts, factor: Key -> real, t: Rollup, k: Key, n: nat): (s: seq<real>)
    ensures |s| == |b.keys|
    decreases n, 1, |b.keys|
  {
    seq(|b.keys|, j requires 0 <= j < |b.keys| =>
      if IsChild(b, k, b.keys[j]) then CarriedNew(b, before, factor, t, b.keys[j], n) else 0.0)
  }

  // ---- Children without a total ----

  predicate IsUncounted(b: Book, fields: set<Field>, t: Rollup, k: Key, c: Key) {
    IsChild(b, k, c) && Head(c, t.total) !in fields
  }

  /** What the children without a total hand up, which the rule does not count. */
  function Uncounted(b: Book, fields: set<Field>, am: Amounts, t: Rollup, k: Key): (s: seq<real>)
    ensures |s| == |b.keys|
  {
    seq(|b.keys|, j requires 0 <= j < |b.keys| =>
      if IsUncounted(b, fields, t, k, b.keys[j]) then Carried(b, fields, am, t, b.keys[j], MAX_DEPTH) else 0.0)
  }

  function UncountedNew(b: Book, before: Amounts, factor: Key -> real, t: Rollup, k: Key): (s: seq<real>)
    ensures |s| == |b.keys|
  {
    seq(|b.keys|, j requires 0 <= j < |b.keys| =>
      if IsUncounted(b, before.Keys, t, k, b.keys[j]) then CarriedNew(b, before, factor, t, b.keys[j], MAX_DEPTH)
      else 0.0)
  }

  lemma {:induction false} CountedAndNot(b: Book, am: Amounts, t: Rollup, k: Key, n: nat)
    requires n <= |b.keys|
    ensures SumTo(CarriedUp(b, am.Keys, am, t, k, MAX_DEPTH), n)
         == SumTo(ChildTotals(b, am, t, k), n) + SumTo(Uncounted(b, am.Keys, am, t, k), n)
  {
    if n > 0 { CountedAndNot(b, am, t, k, n - 1); }
  }

  // ---- The condition ----

  /** A rollup over trees stays kept exactly when what the children without a total hand up comes out as if it were
      one amount to scale. */
  predicate RollupPreservable(b: Book, before: Amounts, factor: Key -> real, t: Rollup, k: Key) {
    IsRollup(t) && k.kind == t.kind && Head(k, t.total) in before ==>
      Sum(UncountedNew(b, before, factor, t, k)) == AsOne(Sum(Uncounted(b, before.Keys, before, t, k)), factor(k))
  }

  /** In the usual case every child has a total. */
  predicate ChildrenCarry(b: Book, fields: set<Field>, t: Rollup, k: Key) {
    forall c :: c in b.entities && IsChild(b, k, c) ==> Head(c, t.total) in fields
  }

  lemma PlainRollupKept(b: Book, before: Amounts, factor: Key -> real, t: Rollup, k: Key)
    requires ChildrenCarry(b, before.Keys, t, k)
    ensures RollupPreservable(b, before, factor, t, k)
  {
    forall j | 0 <= j < |b.keys| ensures !IsUncounted(b, before.Keys, t, k, b.keys[j]) {}
    SumOfZeros(Uncounted(b, before.Keys, before, t, k), |b.keys|);
    SumOfZeros(UncountedNew(b, before, factor, t, k), |b.keys|);
    NothingAsOne(factor(k));
  }

  // ---- The forecast comes true ----

  lemma OpenTermForeseen(b: Book, before: Amounts, after: Amounts, factor: Key -> real, doc: Key, contact: Key)
    requires after.Keys == before.Keys && EntitiesEq(b, before, after, factor)
    ensures OpenTerm(b, after, doc, contact) == OpenTermNew(b, before, factor, doc, contact)
  {
    if OpenItemOf(b, doc).Some? {
      assert EntityEq(b, before, after, doc, factor(doc));
      if IsLineDoc(doc.kind) { BalanceForeseen(b, before, after, doc, factor(doc)); }
    }
  }

  lemma ContactForeseen(b: Book, before: Amounts, after: Amounts, factor: Key -> real, k: Key)
    requires after.Keys == before.Keys && EntitiesEq(b, before, after, factor)
    requires k in b.entities && k.kind.Customer?
    ensures Get(after, Head(k, Balance)) == ContactNew(b, before, factor, k)
  {
    forall j | 0 <= j < |b.keys|
      ensures OpenTerm(b, after, b.keys[j], k) == OpenTermNew(b, before, factor, b.keys[j], k)
    {
      OpenTermForeseen(b, before, after, factor, b.keys[j], k);
    }
    assert OpenTerms(b, after, k) == OpenTermsNew(b, before, factor, k);
    assert EntityEq(b, before, after, k, factor(k));
  }

  lemma OwnForeseen(b: Book, before: Amounts, after: Amounts, factor: Key -> real, t: Rollup, k: Key)
    requires after.Keys == before.Keys && EntitiesEq(b, before, after, factor) && TreesEq(b, before, after, t, factor)
    requires IsRollup(t) && k in b.entities && k.kind == t.kind
    ensures Get(after, Head(k, t.own)) == OwnNew(b, before, factor, t, k)
  {
    if t == CUSTOMERS {
      ContactForeseen(b, before, after, factor, k);
    } else {
      assert RolledUp(b, before, after, t, k, factor(k));
    }
  }

  /** What is added up for the children, however far down one looks in a tree. */
  lemma ChildrenHandUp(b: Book, fields: set<Field>, am: Amounts, t: Rollup, k: Key, n: nat)
    requires Within(b, k, n) && n <= MAX_DEPTH
    ensures Sum(CarriedUp(b, fields, am, t, k, MAX_DEPTH))
         == if n == 0 then 0.0 else Sum(CarriedUp(b, fields, am, t, k, n - 1))
  {
    if n == 0 {
      SumOfZeros(CarriedUp(b, fields, am, t, k, MAX_DEPTH), |b.keys|);
    } else {
      CarriedUpFuel(b, fields, am, t, k, n - 1, MAX_DEPTH);
    }
  }

  lemma {:induction false} CarriedForeseen(b: Book, before: Amounts, after: Amounts, factor: Key -> real, t: Rollup,
                                           k: Key, n: nat)
    requires after.Keys == before.Keys && EntitiesEq(b, before, after, factor) && TreesEq(b, before, after, t, factor)
    requires Forest(b, t.kind) && IsRollup(t) && k in b.entities && k.kind == t.kind
    requires Within(b, k, n) && n <= MAX_DEPTH
    ensures Carried(b, before.Keys, after, t, k, n) == CarriedNew(b, before, factor, t, k, n)
    decreases n, 0
  {
    OwnForeseen(b, before, after, factor, t, k);
    if n > 0 { CarriedUpForeseen(b, before, after, factor, t, k, n - 1); }
    if Head(k, t.total) in before {
      assert RolledUp(b, before, after, t, k, factor(k));
      ChildrenHandUp(b, before.Keys, before, t, k, n);
      ChildrenHandUp(b, before.Keys, after, t, k, n);
    }
  }

  lemma {:induction false} CarriedUpForeseen(b: Book, before: Amounts, after: Amounts, factor: Key -> real, t: Rollup,
                                             k: Key, n: nat)
    requires after.Keys == before.Keys && EntitiesEq(b, before, after, factor) && TreesEq(b, before, after, t, factor)
    requires Forest(b, t.kind) && IsRollup(t) && k.kind == t.kind && Within(b, k, n + 1) && n <= MAX_DEPTH
    ensures CarriedUp(b, before.Keys, after, t, k, n) == CarriedUpNew(b, before, factor, t, k, n)
    decreases n, 1
  {
    forall j | 0 <= j < |b.keys| && IsChild(b, k, b.keys[j])
      ensures Carried(b, before.Keys, after, t, b.keys[j], n) == CarriedNew(b, before, factor, t, b.keys[j], n)
    {
      CarriedForeseen(b, before, after, factor, t, b.keys[j], n);
    }
  }

  lemma UncountedForeseen(b: Book, before: Amounts, after: Amounts, factor: Key -> real, t: Rollup, k: Key)
    requires after.Keys == before.Keys && EntitiesEq(b, before, after, factor) && TreesEq(b, before, after, t, factor)
    requires Forest(b, t.kind) && IsRollup(t) && k.kind == t.kind
    ensures Uncounted(b, before.Keys, after, t, k) == UncountedNew(b, before, factor, t, k)
  {
    forall j | 0 <= j < |b.keys| && IsChild(b, k, b.keys[j])
      ensures Carried(b, before.Keys, after, t, b.keys[j], MAX_DEPTH)
           == CarriedNew(b, before, factor, t, b.keys[j], MAX_DEPTH)
    {
      assert Within(b, b.keys[j], MAX_DEPTH);
      CarriedForeseen(b, before, after, factor, t, b.keys[j], MAX_DEPTH);
    }
  }

  /** A rollup over trees that the original keeps is kept after scrubbing exactly when its condition holds. */
  lemma RollupExactly(b: Book, before: Amounts, after: Amounts, factor: Key -> real, t: Rollup, k: Key)
    requires after.Keys == before.Keys && EntitiesEq(b, before, after, factor)
    requires IsRollup(t) && k.kind == t.kind ==> TreesEq(b, before, after, t, factor)
    requires k in b.entities && Forest(b, t.kind) && RollupHolds(b, before, k, t)
    ensures RollupHolds(b, after, k, t) <==> RollupPreservable(b, before, factor, t, k)
  {
    if IsRollup(t) && k.kind == t.kind && Head(k, t.total) in before {
      assert RolledUp(b, before, after, t, k, factor(k));
      UncountedForeseen(b, before, after, factor, t, k);
      CountedAndNot(b, before, t, k, |b.keys|);
      CountedAndNot(b, after, t, k, |b.keys|);
      KeptExactly(before, after, Head(k, t.total), RollupFormula(b, before.Keys, after, t, k),
                  RollupFormula(b, before.Keys, before, t, k), Sum(Uncounted(b, before.Keys, after, t, k)),
                  Sum(Uncounted(b, before.Keys, before, t, k)), factor(k));
    }
  }
}
