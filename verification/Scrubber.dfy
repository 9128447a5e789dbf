/** The amount scrubber itself. It rewrites a copy of the book in place, one figure at a
    time, and remembers which figures it has written: `out` holds the written figures, so
    its keys are the `handled` set, and a figure of the copy that is not written yet still
    reads as the original. */
module Scrubber {
  import opened Cents
  import opened Wrappers
  import opened FixtureBook
  import opened ScrubSpec
  import opened ScrubStability
  import opened ScrubSteps
  import opened ScrubStages
  import opened ScrubFigures
  import Allocate

  class AmountScrubber {
    const book: Book
    const before: Amounts
    const factor: Key -> real
    /** The figures written so far. */
    var out: Amounts
    /** No figure has been written twice. */
    ghost var writtenOnce: bool

    ghost predicate Valid()
      reads this
    {
      out.Keys <= before.Keys
    }

    /** The copy's figure as it stands. */
    function Current(fld: Field): real
      reads this
    {
      if fld in out then out[fld] else Get(before, fld)
    }

    constructor (book: Book, before: Amounts, factor: Key -> real)
      ensures Valid() && this.book == book && this.before == before && this.factor == factor
      ensures out == map[] && writtenOnce
    {
      this.book, this.before, this.factor := book, before, factor;
      out, writtenOnce := map[], true;
    }

    // ---- Writing one figure ----

    /** `_set`. */
    method Set(fld: Field, amount: real)
      requires Valid() && fld in before
      modifies this
      ensures Valid() && out == old(out)[fld := amount]
      ensures writtenOnce == (old(writtenOnce) && fld !in old(out))
    {
      writtenOnce := writtenOnce && fld !in out;
      out := out[fld := amount];
    }

    /** `leaf`; the source asserts the figure is not written yet. */
    method Leaf(fld: Field, f: real) returns (pair: Option<Pair>)
      requires Valid() && fld !in out
      modifies this
      ensures Valid() && writtenOnce == old(writtenOnce)
      ensures out == if fld in before then old(out)[fld := Scaled(before[fld], f)] else old(out)
      ensures pair == if fld in before then Some((before[fld], Scaled(before[fld], f))) else None
    {
      if fld !in before {
        return None;
      }
      var was := before[fld];
      Set(fld, Scaled(was, f));
      pair := Some((was, Scaled(was, f)));
    }

    /** `derived`. */
    method Derive(fld: Field, newFormula: real, oldFormula: real, f: real) returns (pair: Option<Pair>)
      requires Valid()
      modifies this
      ensures Valid() && writtenOnce == (old(writtenOnce) && fld !in old(out))
      ensures out == if fld in before then old(out)[fld := Derived(before[fld], newFormula, oldFormula,
          f)] else old(out)
      ensures pair == if fld in before then Some((before[fld],
          Derived(before[fld], newFormula, oldFormula, f))) else None
    {
      if fld !in before {
        return None;
      }
      var amount := Derived(before[fld], newFormula, oldFormula, f);
      Set(fld, amount);
      pair := Some((before[fld], amount));
    }

    // ---- Documents with lines ----

    /** `_line_leaf`: an item line keeps quantity times price; any other line is a free amount. */
    method LineLeaf(amount: Field, price: Field, qty: Option<real>, f: real) returns (o: real, n: real)
      requires Valid() && amount !in out && price !in out && amount != price
      modifies this
      ensures Valid() && Grew(before, old(out), out) && writtenOnce == old(writtenOnce)
      ensures forall fld :: fld in out && fld !in old(out) ==>
        fld == amount || (fld == price && Priced(before, amount, price, qty))
      ensures ItemEq(book, before, out, amount, price, qty, f)
      ensures o == Get(before, amount) && n == Get(out, amount)
    {
      if amount in before && price in before && qty.Some? && qty.value != 0.0 {
        var newPrice, newAmount := RepriceLine(qty.value, before[amount], before[price], PriceStep(book, price), f);
        Set(price, newPrice);
        Set(amount, newAmount);
        return before[amount], newAmount;
      }
      var pair := Leaf(amount, f);
      match pair
      case Some(p) => o, n := p.0, p.1;
      case None => o, n := 0.0, 0.0;
    }

    /** The sub-lines of a group, and what they came to. */
    method SubLines(k: Key, i: nat, f: real) returns (totalOld: real, totalNew: real)
      requires Valid() && i < |book.Lines(k)| && book.Lines(k)[i].detail.Group? && IsLineDoc(k.kind)
      requires forall fld :: fld in out && fld.key == k ==> !OnSub(fld, i, |book.Lines(k)[i].subs|)
      modifies this
      ensures Valid() && Grew(before, old(out), out) && writtenOnce == old(writtenOnce)
      ensures forall fld :: fld in out && fld !in old(out) ==>
        fld.key == k && OnSub(fld, i, |book.Lines(k)[i].subs|) && Stage(book, before, fld) == 1
      ensures forall j: nat :: j < |book.Lines(k)[i].subs| ==> SubEq(book, before, out, k, i, j, f)
      ensures totalOld == Sum(SubValues(book, before, k, i))
      ensures totalNew == Sum(SubValues(book, out, k, i))
    {
      var subs := book.Lines(k)[i].subs;
      totalOld, totalNew := 0.0, 0.0;
      for j := 0 to |subs|
        invariant Valid() && writtenOnce == old(writtenOnce)
        invariant SubsDone(book, before, old(out), out, k, i, j, f, (totalOld, totalNew))
      {
        ghost var was := out;
        SubUnwritten(book, before, old(out), out, k, i, j);
        var a, z := LineLeaf(SubAmount(k, i, j), SubPrice(k, i, j), subs[j].qty, f);
        SubsNext(book, before, old(out), was, out, k, i, j, f, (totalOld, totalNew));
        totalOld, totalNew := totalOld + a, totalNew + z;
      }
    }

    /** `_group`: the sub-lines, then the group's own amount from their sum. */
    method GroupLine(k: Key, i: nat, f: real) returns (o: real, n: real)
      requires Valid() && i < |book.Lines(k)| && book.Lines(k)[i].detail.Group? && IsLineDoc(k.kind)
      requires forall fld :: fld in out && fld.key == k ==> !OnLine(fld, i)
      modifies this
      ensures Valid() && Grew(before, old(out), out) && writtenOnce == old(writtenOnce)
      ensures forall fld :: fld in out && fld !in old(out) ==>
        fld.key == k && OnLine(fld, i) && Stage(book, before, fld) == 1
      ensures LeafLineEq(book, before, out, k, i, f)
      ensures o == LineValue(book, before, k, i) && n == LineValue(book, out, k, i)
    {
      var totalOld, totalNew := SubLines(k, i, f);
      ghost var was := out;
      var pair := Derive(LineAmount(k, i), totalNew, totalOld, f);
      SubsStable(book, before, was, out, k, i, |book.Lines(k)[i].subs|, f);
      match pair
      case Some(p) => o, n := p.0, p.1;
      case None => o, n := totalOld, totalNew;
    }

    /** A group or item line. */
    method LeafLine(k: Key, i: nat, f: real) returns (o: real, n: real)
      requires Valid() && i < |book.Lines(k)| && IsLeaf(book.Lines(k)[i]) && IsLineDoc(k.kind)
      requires forall fld :: fld in out && fld.key == k ==> !OnLine(fld, i)
      modifies this
      ensures Valid() && Grew(before, old(out), out) && writtenOnce == old(writtenOnce)
      ensures forall fld :: fld in out && fld !in old(out) ==>
        fld.key == k && OnLine(fld, i) && Stage(book, before, fld) == 1
      ensures LeafLineEq(book, before, out, k, i, f)
      ensures o == LineValue(book, before, k, i) && n == LineValue(book, out, k, i)
    {
      if book.Lines(k)[i].detail.Group? {
        o, n := GroupLine(k, i, f);
      } else {
        o, n := LineLeaf(LineAmount(k, i), LinePrice(k, i), book.Lines(k)[i].qty, f);
      }
    }

    /** The first pass of `_lines`: every group and item line, and what they come to. */
    method LeafLines(k: Key, f: real) returns (leaf: Pair, taxable: Pair)
      requires Valid() && IsLineDoc(k.kind)
      requires forall fld :: fld in out ==> fld.key != k
      modifies this
      ensures Valid() && writtenOnce == old(writtenOnce)
      ensures LeavesDone(book, before, old(out), out, k, |book.Lines(k)|, f, leaf, taxable)
    {
      var lines := book.Lines(k);
      leaf, taxable := (0.0, 0.0), (0.0, 0.0);
      for i := 0 to |lines|
        invariant Valid() && writtenOnce == old(writtenOnce)
        invariant LeavesDone(book, before, old(out), out, k, i, f, leaf, taxable)
      {
        if IsLeaf(lines[i]) {
          ghost var was := out;
          var o, n := LeafLine(k, i, f);
          LeavesExtended(book, before, old(out), was, out, k, i, f, leaf, taxable);
          leaf := (leaf.0 + o, leaf.1 + n);
          if lines[i].isTaxable {
            taxable := (taxable.0 + o, taxable.1 + n);
          }
        } else {
          LeavesSkipped(book, before, old(out), out, k, i, f, leaf, taxable);
        }
      }
    }

    /** The second pass of `_lines`: subtotals follow the leaf sum. */
    method Subtotals(k: Key, leaf: Pair, f: real)
      requires Valid() && IsLineDoc(k.kind)
      requires forall i: nat :: i < |book.Lines(k)| && !IsLeaf(book.Lines(k)[i]) ==> LineAmount(k, i) !in out
      requires LeavesStand(book, before, out, k, f, leaf)
      modifies this
      ensures Valid() && writtenOnce == old(writtenOnce)
      ensures SummariesDone(book, before, old(out), out, k, |book.Lines(k)|, 0, f, leaf)
    {
      var lines := book.Lines(k);
      for i := 0 to |lines|
        invariant Valid() && writtenOnce == old(writtenOnce)
        invariant SummariesDone(book, before, old(out), out, k, i, 0, f, leaf)
      {
        if lines[i].detail.SubTotal? {
          ghost var was := out;
          var _ := Derive(LineAmount(k, i), leaf.1, leaf.0, f);
          SummariesExtended(book, before, old(out), was, out, k, i, i, 0, f, leaf);
        } else {
          SummariesSkipped(book, before, old(out), out, k, i, 0, f, leaf);
        }
      }
    }

    /** The third pass of `_lines`: discounts follow the leaf sum or are free amounts. */
    method Discounts(k: Key, leaf: Pair, f: real, ghost start: Amounts) returns (discount: Pair)
      requires Valid() && IsLineDoc(k.kind)
      requires forall i: nat :: i < |book.Lines(k)| && !IsLeaf(book.Lines(k)[i]) ==> LineAmount(k, i) !in start
      requires SummariesDone(book, before, start, out, k, |book.Lines(k)|, 0, f, leaf)
      modifies this
      ensures Valid() && writtenOnce == old(writtenOnce)
      ensures SummariesDone(book, before, start, out, k, |book.Lines(k)|, |book.Lines(k)|, f, leaf)
      ensures discount.0 == Sum(DiscountValues(book, before, k)) && discount.1 == Sum(DiscountValues(book, out, k))
    {
      var lines := book.Lines(k);
      discount := (0.0, 0.0);
      for i := 0 to |lines|
        invariant Valid() && writtenOnce == old(writtenOnce)
        invariant SummariesDone(book, before, start, out, k, |lines|, i, f, leaf)
        invariant DiscountsSummed(book, before, out, k, i, discount)
      {
        if lines[i].detail.Discount? {
          ghost var was := out;
          DiscountUnwritten(book, before, start, out, k, i, f, leaf);
          var pair := DiscountLine(k, i, leaf, f);
          SummariesExtended(book, before, start, was, out, k, i, |lines|, i, f, leaf);
          DiscountsSummedNext(book, before, was, out, k, i, leaf, discount, f);
          discount := AddPair(discount, pair);
        } else {
          SummariesSkipped(book, before, start, out, k, |lines|, i, f, leaf);
        }
      }
    }

    method DiscountLine(k: Key, i: nat, leaf: Pair, f: real) returns (pair: Pair)
      requires Valid() && i < |book.Lines(k)| && book.Lines(k)[i].detail.Discount? && LineAmount(k, i) !in out
      modifies this
      ensures Valid() && Grew(before, old(out), out) && writtenOnce == old(writtenOnce)
      ensures forall fld :: fld in out && fld !in old(out) ==> fld == LineAmount(k, i)
      ensures SummaryFrom(book, before, out, k, i, leaf, f)
      ensures pair == (Get(before, LineAmount(k, i)), Get(out, LineAmount(k, i)))
    {
      var scrubbed;
      match book.Lines(k)[i].percent {
        case Some(percent) =>
          scrubbed := Derive(LineAmount(k, i), PercentOf(leaf.1, percent), PercentOf(leaf.0, percent), f);
        case None =>
          scrubbed := Leaf(LineAmount(k, i), f);
      }
      pair := if scrubbed.Some? then scrubbed.value else (0.0, 0.0);
    }

    /** One tax line: its base follows the taxable lines, its amount the base. */
    method TaxLine(k: Key, i: nat, taxable: Pair, f: real) returns (pair: Pair)
      requires Valid() && i < |book.TaxLines(k)| && TaxBase(k, i) !in out && TaxAmount(k, i) !in out
      modifies this
      ensures Valid() && Grew(before, old(out), out) && writtenOnce == old(writtenOnce)
      ensures forall fld :: fld in out && fld !in old(out) ==> fld == TaxBase(k, i) || fld == TaxAmount(k, i)
      ensures TaxFrom(book, before, out, k, i, taxable, f)
      ensures pair == (Get(before, TaxAmount(k, i)), Get(out, TaxAmount(k, i)))
    {
      var nat' := Derive(TaxBase(k, i), taxable.1, taxable.0, f);
      var percent := book.TaxLines(k)[i].percent;
      var scrubbed;
      if nat'.Some? && percent.Some? {
        scrubbed := Derive(TaxAmount(k, i), PercentOf(nat'.value.1, percent.value),
            PercentOf(nat'.value.0, percent.value), f);
      } else {
        scrubbed := Leaf(TaxAmount(k, i), f);
      }
      pair := if scrubbed.Some? then scrubbed.value else (0.0, 0.0);
    }

    /** The tax lines of `_tax`, and what they came to. */
    method TaxLines(k: Key, taxable: Pair, f: real) returns (tax: Pair)
      requires Valid() && IsLineDoc(k.kind)
      requires forall i: nat :: i < |book.TaxLines(k)| ==> TaxBase(k, i) !in out && TaxAmount(k, i) !in out
      modifies this
      ensures Valid() && Grew(before, old(out), out) && writtenOnce == old(writtenOnce)
      ensures NewOnTaxes(book, before, old(out), out, k, |book.TaxLines(k)|)
      ensures TaxesFrom(book, before, out, k, |book.TaxLines(k)|, taxable, f)
      ensures TaxesSummed(book, before, out, k, |book.TaxLines(k)|, tax)
    {
      tax := (0.0, 0.0);
      TaxStart(book, before, out, k);
      for i := 0 to |book.TaxLines(k)|
        invariant Valid() && writtenOnce == old(writtenOnce) && Grew(before, old(out), out)
        invariant NewOnTaxes(book, before, old(out), out, k, i)
        invariant TaxesFrom(book, before, out, k, i, taxable, f)
        invariant TaxesSummed(book, before, out, k, i, tax)
      {
        ghost var was := out;
        TaxUnwritten(book, before, old(out), out, k, i);
        var pair := TaxLine(k, i, taxable, f);
        NewOnTaxesNext(book, before, old(out), was, out, k, i);
        TaxesFromNext(book, before, was, out, k, i, taxable, f, tax);
        tax := AddPair(tax, pair);
      }
    }

    /** `_tax`. */
    method Tax(k: Key, taxable: Pair, f: real) returns (tax: Pair)
      requires Valid() && IsLineDoc(k.kind) && k in book.entities
      requires forall i: nat :: i < |book.TaxLines(k)| ==> TaxBase(k, i) !in out && TaxAmount(k, i) !in out
      requires TotalTax(k) !in out
      modifies this
      ensures Valid() && Grew(before, old(out), out) && writtenOnce == old(writtenOnce)
      ensures forall fld :: fld in out && fld !in old(out) ==>
        fld.key == k && (fld.TaxBase? || fld.TaxAmount? || fld.TotalTax?) && Stage(book, before, fld) == 1
      ensures TaxesFrom(book, before, out, k, |book.TaxLines(k)|, taxable, f)
      ensures book.entities[k].tax.Some? ==>
        DerivedEq(before, out, TotalTax(k), Sum(TaxValues(book, out, k)), Sum(TaxValues(book, before, k)), f)
      ensures !book.entities[k].taxInclusive ==> tax.0 == TaxOf(book, before, k) && tax.1 == TaxOf(book, out, k)
    {
      if book.entities[k].tax.None? { return (0.0, 0.0); }
      tax := TaxLines(k, taxable, f);
      ghost var was := out;
      var pair := Derive(TotalTax(k), tax.1, tax.0, f);
      TaxesStay(book, before, was, out, k, |book.TaxLines(k)|, taxable, f, tax);
      if pair.Some? { tax := pair.value; }
    }

    /** `_lines`: all three passes. */
    method Lines(k: Key, f: real) returns (leaf: Pair, taxable: Pair, discount: Pair)
      requires Valid() && IsLineDoc(k.kind)
      requires forall fld :: fld in out ==> fld.key != k
      modifies this
      ensures Valid() && Grew(before, old(out), out) && writtenOnce == old(writtenOnce)
      ensures NewOnLines(book, before, old(out), out, k)
      ensures LinesEq(book, before, out, k, f)
      ensures LinesSummed(book, before, out, k, leaf, taxable, discount)
    {
      leaf, taxable := LeafLines(k, f);
      ghost var start := out;
      LeavesToStand(book, before, old(out), start, k, f, leaf, taxable);
      Subtotals(k, leaf, f);
      discount := Discounts(k, leaf, f, start);
      LinesComplete(book, before, old(out), start, out, k, leaf, taxable, f);
    }

    /** A document's lines and tax, and the formula of its total before and after. */
    method LinesAndTax(k: Key, f: real) returns (formula: Pair)
      requires Valid() && IsLineDoc(k.kind) && k in book.entities
      requires forall fld :: fld in out ==> fld.key != k
      modifies this
      ensures Valid() && Grew(before, old(out), out) && writtenOnce == old(writtenOnce)
      ensures forall fld :: fld in out && fld !in old(out) ==>
        fld.key == k && !fld.Head? && Stage(book, before, fld) == 1
      ensures LinesEq(book, before, out, k, f) && TaxEq(book, before, out, k, f)
      ensures formula.0 == TotalFormula(book, before, k) && formula.1 == TotalFormula(book, out, k)
    {
      var leaf, taxable, discount := Lines(k, f);
      ghost var lined := out;
      var tax := Tax(k, taxable, f);
      LinesStay(book, before, lined, out, k, f, leaf, taxable, discount);
      TaxComplete(book, before, out, k, taxable, f);
      if book.entities[k].taxInclusive { tax := (0.0, 0.0); }
      formula := (leaf.0 - discount.0 + tax.0, leaf.1 - discount.1 + tax.1);
    }

    /** `_line_doc`. */
    method LineDoc(k: Key)
      requires Valid() && IsLineDoc(k.kind) && k in book.entities
      requires forall fld :: fld in out ==> fld.key != k
      modifies this
      ensures Valid() && Grew(before, old(out), out) && writtenOnce == old(writtenOnce)
      ensures forall fld :: fld in out && fld !in old(out) ==> Stage(book, before, fld) == 1 && fld.key == k
      ensures LineDocEq(book, before, out, k, factor(k))
    {
      var f := factor(k);
      var formula := LinesAndTax(k, f);
      ghost var taxed := out;
      var _ := Derive(Head(k, TotalAmt), formula.1, formula.0, f);
      var _ := Leaf(Head(k, DepositPaid), f);
      FormulaStays(book, before, taxed, out, k, f);
    }

    /** Writes allocated amounts over the figures they belong to. */
    method SetAll(fields: seq<Field>, amounts: seq<real>)
      requires Valid() && |fields| == |amounts|
      requires forall i, j :: 0 <= i < j < |fields| ==> fields[i] != fields[j]
      requires forall i :: 0 <= i < |fields| ==> fields[i] in before && fields[i] !in out
      modifies this
      ensures Valid() && Grew(before, old(out), out) && writtenOnce == old(writtenOnce)
      ensures forall fld :: fld in out && fld !in old(out) ==> fld in fields
      ensures forall i :: 0 <= i < |fields| ==> fields[i] in out && out[fields[i]] == amounts[i]
    {
      for i := 0 to |fields|
        invariant Valid() && Grew(before, old(out), out) && writtenOnce == old(writtenOnce)
        invariant forall fld :: fld in out && fld !in old(out) ==> fld in fields[..i]
        invariant forall j :: 0 <= j < i ==> fields[j] in out && out[fields[j]] == amounts[j]
      {
        Set(fields[i], amounts[i]);
      }
    }

    // ---- Journals ----

    /** The first loop of `_journal`: sort the lines by side; a line on neither side is a free amount. */
    method JournalSides(k: Key, f: real) returns (debits: seq<nat>, credits: seq<nat>)
      requires Valid() && k.kind.JournalEntry?
      requires forall fld :: fld in out ==> fld.key != k
      modifies this
      ensures Valid() && Grew(before, old(out), out) && writtenOnce == old(writtenOnce)
      ensures debits == SideLines(book, before.Keys, k, Debit, |book.Lines(k)|)
      ensures credits == SideLines(book, before.Keys, k, Credit, |book.Lines(k)|)
      ensures FreeLines(book, before, old(out), out, k, |book.Lines(k)|, f)
    {
      var lines := book.Lines(k);
      debits, credits := [], [];
      for i := 0 to |lines|
        invariant Valid() && Grew(before, old(out), out) && writtenOnce == old(writtenOnce)
        invariant debits == SideLines(book, before.Keys, k, Debit, i)
        invariant credits == SideLines(book, before.Keys, k, Credit, i)
        invariant FreeLines(book, before, old(out), out, k, i, f)
      {
        ghost var was := out;
        if lines[i].posting.Some? && LineAmount(k, i) in before {
          if lines[i].posting.value.Debit? { debits := debits + [i]; } else { credits := credits + [i]; }
        } else {
          var _ := Leaf(LineAmount(k, i), f);
        }
        FreeLinesNext(book, before, old(out), was, out, k, i, f);
      }
    }

    /** Spreads a side's new total over its lines. */
    method SetSide(k: Key, lines: seq<nat>, total: real)
      requires Valid() && Increasing(lines)
      requires forall i :: i in lines ==> LineAmount(k, i) in before && LineAmount(k, i) !in out
      modifies this
      ensures Valid() && Grew(before, old(out), out) && writtenOnce == old(writtenOnce)
      ensures forall fld :: fld in out && fld !in old(out) ==> fld.LineAmount? && fld.key == k && fld.line in lines
      ensures SideAllocated(before, out, k, lines, total)
    {
      var cents := Allocate.Run(LineAmounts(before, k, lines), total);
      SetAll(LineFields(k, lines), cents);
    }

    /** Both sides of a journal: debits scaled as a group, credits brought to the same total. */
    method JournalAmounts(k: Key, f: real) returns (debitOld: real, debitNew: real)
      requires Valid() && k.kind.JournalEntry?
      requires forall fld :: fld in out ==> fld.key != k
      modifies this
      ensures Valid() && writtenOnce == old(writtenOnce)
      ensures JournalAllocated(book, before, old(out), out, k, f)
      ensures debitOld == Sum(JournalSide(book, before.Keys, before, k, Debit))
      ensures debitNew == JournalTotals(book, before, k, f).0
    {
      var debits, credits := JournalSides(k, f);
      ghost var free := out;
      debitOld := Sum(LineAmounts(before, k, debits));
      var creditOld := Sum(LineAmounts(before, k, credits));
      debitNew := DebitNew(debitOld, f);
      var creditNew := Derived(creditOld, debitNew, debitOld, f);
      SideLinesIncreasing(book, before.Keys, k, Debit, |book.Lines(k)|);
      SideLinesIncreasing(book, before.Keys, k, Credit, |book.Lines(k)|);
      SetSide(k, debits, debitNew);
      SetSide(k, credits, creditNew);
      FreeLinesStay(book, before, old(out), free, out, k, f);
    }

    /** `_journal`. */
    method Journal(k: Key)
      requires Valid() && k.kind.JournalEntry?
      requires forall fld :: fld in out ==> fld.key != k
      modifies this
      ensures Valid() && Grew(before, old(out), out) && writtenOnce == old(writtenOnce)
      ensures forall fld :: fld in out && fld !in old(out) ==> Stage(book, before, fld) == 1 && fld.key == k
      ensures JournalEq(book, before, out, k, factor(k))
    {
      var debitOld, debitNew := JournalAmounts(k, factor(k));
      ghost var sides := out;
      var _ := Derive(Head(k, TotalAmt), debitNew, debitOld, factor(k));
      JournalComplete(book, before, old(out), sides, out, k, factor(k));
    }

    // ---- Applications and balances ----

    /** `_applications`: every payer line that names exactly one in-book target, by target. */
    method Applications() returns (apps: map<Key, seq<LineRef>>)
      requires book.Valid()
      ensures forall t :: AppsOf(apps, t) == Apps(book, before.Keys, t)
    {
      apps := map[];
      for n := 0 to |book.keys|
        invariant AppsFound(book, before.Keys, apps, n, 0)
      {
        var k := book.keys[n];
        if IsPayer(k.kind) {
          for m := 0 to |book.Lines(k)|
            invariant AppsFound(book, before.Keys, apps, n, m)
          {
            var target := AppTarget(book, before.Keys, k, m);
            if target.Some? {
              apps := apps[target.value := AppsOf(apps, target.value) + [LineRef(k, m)]];
            }
          }
        } else {
          forall t ensures AppsUpTo(book, before.Keys, t, n + 1, 0) == AppsUpTo(book, before.Keys, t, n, 0) {
            NoApps(book, before.Keys, t, n, |book.Lines(k)|);
          }
        }
      }
    }

    /** Spreads a document's new applied total over the lines that pay it. */
    method SetApplications(k: Key, refs: seq<LineRef>, applied: real)
      requires Valid() && book.Valid() && refs == Apps(book, before.Keys, k)
      requires forall r :: r in refs ==> LineAmount(r.payer, r.line) !in out
      modifies this
      ensures Valid() && Grew(before, old(out), out) && writtenOnce == old(writtenOnce)
      ensures AppliedTo(book, before, old(out), out, k)
      ensures AppAmounts(out, refs) == Allocate.Allocation(AppAmounts(before, refs), applied)
    {
      var cents := Allocate.Run(AppAmounts(before, refs), applied);
      RefFieldsReady(book, before, out, k);
      SetAll(RefFields(refs), cents);
      AppsSet(out, refs, cents);
      AppsOnlyWrite(book, before, old(out), out, k);
    }

    /** The balance and the remaining credit, from what is left open. */
    method SetOpen(k: Key, oldOpen: real, newOpen: real, f: real)
      requires Valid() && Head(k, Balance) !in out && Head(k, RemainingCredit) !in out
      modifies this
      ensures Valid() && Grew(before, old(out), out) && writtenOnce == old(writtenOnce)
      ensures forall fld :: fld in out && fld !in old(out) ==>
          fld == Head(k, Balance) || fld == Head(k, RemainingCredit)
      ensures OpenFrom(before, out, k, newOpen, oldOpen, f)
    {
      var balance := Derive(Head(k, Balance), newOpen, oldOpen, f);
      if balance.Some? {
        var _ := Derive(Head(k, RemainingCredit), balance.value.1, balance.value.0, f);
      } else {
        var _ := Derive(Head(k, RemainingCredit), newOpen, oldOpen, f);
      }
    }

    /** What was and what will be left open on a document, and what will be applied to it. */
    method OpenOf(k: Key, refs: seq<LineRef>, f: real) returns (open: Pair, appliedNew: real)
      requires Valid() && refs == Apps(book, before.Keys, k) && TotalWritten(before, out, k)
      ensures appliedNew == TargetApplied(book, before, out, k, f)
      ensures open.0 == Base(before, k) - Applied(book, before, k) && open.1 == Base(out, k) - appliedNew
    {
      var baseOld := Get(before, Head(k, TotalAmt)) - Get(before, Head(k, DepositPaid));
      var baseNew := Current(Head(k, TotalAmt)) - Current(Head(k, DepositPaid));
      assert baseNew == Base(out, k);
      var applied := Sum(AppAmounts(before, refs));
      appliedNew := AppliedNew(applied, baseOld, baseNew, f);
      open := (baseOld - applied, baseNew - appliedNew);
    }

    /** One document's turn in `_balances`. */
    method Balances(k: Key, refs: seq<LineRef>)
      requires Valid() && book.Valid() && refs == Apps(book, before.Keys, k) && IsLineDoc(k.kind)
      requires TotalWritten(before, out, k)
      requires forall r :: r in refs ==> LineAmount(r.payer, r.line) !in out
      requires Head(k, Balance) !in out && Head(k, RemainingCredit) !in out
      modifies this
      ensures Valid() && Grew(before, old(out), out) && writtenOnce == old(writtenOnce)
      ensures NewOnBalance(book, before, old(out), out, k)
      ensures BalanceEq(book, before, out, k, factor(k))
    {
      var open, appliedNew := OpenOf(k, refs, factor(k));
      SetApplications(k, refs, appliedNew);
      ghost var was := out;
      SetOpen(k, open.0, open.1, factor(k));
      BalanceComplete(book, before, old(out), was, out, k, factor(k));
      NewOnBalanceOf(book, before, old(out), was, out, k);
    }

    // ---- Payers and deposits ----

    /** One line of a payer: rewritten with the document it pays and read back, or a free amount. */
    method PayerLine(k: Key, i: nat, f: real, sum: Pair, ghost start: Amounts) returns (next: Pair)
      requires Valid() && IsPayer(k.kind) && i < |book.Lines(k)|
      requires PayerReady(book, before, out, k, i) && PayerDone(book, before, start, out, k, i, f, sum)
      modifies this
      ensures Valid() && writtenOnce == old(writtenOnce)
      ensures PayerReady(book, before, out, k, i + 1) && PayerDone(book, before, start, out, k, i + 1, f, next)
    {
      var fld := LineAmount(k, i);
      var pair := Some((Get(before, fld), Current(fld)));
      if fld !in out {
        pair := Leaf(fld, f);
      }
      PayerDoneNext(book, before, start, old(out), out, k, i, f, sum);
      next := sum;
      if pair.Some? {
        var negative := UsesCredit(book, k, i);
        next := (sum.0 + Signed(pair.value.0, negative), sum.1 + Signed(pair.value.1, negative));
      }
    }

    /** A payer's lines, and what they come to. */
    method PayerLines(k: Key, f: real) returns (sum: Pair)
      requires Valid() && IsPayer(k.kind)
      requires PayerReady(book, before, out, k, 0)
      modifies this
      ensures Valid() && writtenOnce == old(writtenOnce)
      ensures PayerDone(book, before, old(out), out, k, |book.Lines(k)|, f, sum)
    {
      sum := (0.0, 0.0);
      for i := 0 to |book.Lines(k)|
        invariant Valid() && writtenOnce == old(writtenOnce)
        invariant PayerReady(book, before, out, k, i)
        invariant PayerDone(book, before, old(out), out, k, i, f, sum)
      {
        sum := PayerLine(k, i, f, sum, old(out));
      }
    }

    /** A payer's unapplied amount and total. */
    method PayerTotal(k: Key, sum: Pair, f: real)
      requires Valid() && Head(k, UnappliedAmt) !in out && Head(k, TotalAmt) !in out
      modifies this
      ensures Valid() && Grew(before, old(out), out) && writtenOnce == old(writtenOnce)
      ensures forall fld :: fld in out && fld !in old(out) ==> fld == Head(k, UnappliedAmt) || fld == Head(k, TotalAmt)
      ensures PayerTotalFrom(before, out, k, sum, f)
    {
      var unapplied := Leaf(Head(k, UnappliedAmt), f);
      var left := if unapplied.Some? then unapplied.value else (0.0, 0.0);
      var _ := Derive(Head(k, TotalAmt), sum.1 + left.1, sum.0 + left.0, f);
    }

    /** `_payer`. */
    method Payer(k: Key)
      requires Valid() && IsPayer(k.kind)
      requires PayerReady(book, before, out, k, 0)
      requires Head(k, UnappliedAmt) !in out && Head(k, TotalAmt) !in out
      modifies this
      ensures Valid() && Grew(before, old(out), out) && writtenOnce == old(writtenOnce)
      ensures forall fld :: fld in out && fld !in old(out) ==> Stage(book, before, fld) == 3 && fld.key == k
      ensures PayerEq(book, before, out, k, factor(k))
    {
      var sum := PayerLines(k, factor(k));
      ghost var lined := out;
      PayerTotal(k, sum, factor(k));
      PayerComplete(book, before, old(out), lined, out, k, factor(k), sum);
    }

    /** One line of a deposit follows the total of the transaction it brings, or is a free amount. */
    method DepositLine(k: Key, i: nat, f: real) returns (pair: Option<Pair>)
      requires Valid() && i < |book.Lines(k)| && LineAmount(k, i) !in out && TotalsBefore(book, before, out, k)
      modifies this
      ensures Valid() && Grew(before, old(out), out) && writtenOnce == old(writtenOnce)
      ensures forall fld :: fld in out && fld !in old(out) ==> fld == LineAmount(k, i)
      ensures DepositLineEq(book, before, out, k, i, f)
      ensures pair == if LineAmount(k,
          i) in before then Some((before[LineAmount(k, i)], out[LineAmount(k, i)])) else None
    {
      match DepositTarget(book, before.Keys, k, i)
      case Some(t) =>
        pair := Derive(LineAmount(k, i), Current(Head(t, TotalAmt)), Get(before, Head(t, TotalAmt)), f);
      case None =>
        pair := Leaf(LineAmount(k, i), f);
    }

    method DepositLines(k: Key, f: real) returns (sum: Pair)
      requires Valid() && TotalsBefore(book, before, out, k)
      requires forall fld :: fld in out ==> !(fld.LineAmount? && fld.key == k)
      modifies this
      ensures Valid() && writtenOnce == old(writtenOnce)
      ensures DepositDone(book, before, old(out), out, k, |book.Lines(k)|, f, sum)
    {
      var lines := book.Lines(k);
      sum := (0.0, 0.0);
      for i := 0 to |lines|
        invariant Valid() && writtenOnce == old(writtenOnce) && TotalsBefore(book, before, out, k)
        invariant DepositDone(book, before, old(out), out, k, i, f, sum)
      {
        ghost var was := out;
        var pair := DepositLine(k, i, f);
        DepositDoneNext(book, before, old(out), was, out, k, i, f, sum);
        if pair.Some? {
          sum := (sum.0 + pair.value.0, sum.1 + pair.value.1);
        }
      }
    }

    /** A deposit's cash back and total. */
    method DepositTotal(k: Key, sum: Pair, f: real)
      requires Valid() && CashBack(k) !in out && Head(k, TotalAmt) !in out
      modifies this
      ensures Valid() && Grew(before, old(out), out) && writtenOnce == old(writtenOnce)
      ensures forall fld :: fld in out && fld !in old(out) ==> fld == CashBack(k) || fld == Head(k, TotalAmt)
      ensures DepositTotalFrom(before, out, k, sum, f)
    {
      var cash := Leaf(CashBack(k), f);
      var back := if cash.Some? then cash.value else (0.0, 0.0);
      var _ := Derive(Head(k, TotalAmt), sum.1 - back.1, sum.0 - back.0, f);
    }

    /** `_deposit`. */
    method Deposit(k: Key)
      requires Valid() && k.kind.Deposit? && TotalsBefore(book, before, out, k)
      requires forall fld :: fld in out ==> !(Stage(book, before, fld) == 4 && fld.key == k)
      requires forall fld :: fld in out ==> !(fld.LineAmount? && fld.key == k)
      modifies this
      ensures Valid() && Grew(before, old(out), out) && writtenOnce == old(writtenOnce)
      ensures forall fld :: fld in out && fld !in old(out) ==> Stage(book, before, fld) == 4 && fld.key == k
      ensures DepositEq(book, before, out, k, factor(k))
    {
      assert Stage(book, before, CashBack(k)) == 4 && Stage(book, before, Head(k, TotalAmt)) == 4;
      var sum := DepositLines(k, factor(k));
      ghost var lined := out;
      DepositTotal(k, sum, factor(k));
      DepositComplete(book, before, old(out), lined, out, k, factor(k), sum);
    }

    // ---- Contacts ----

    /** The dictionary of open balances in `_contacts`. */
    method OpenBalances() returns (open: map<Key, Pair>)
      requires Valid() && OpenWritten(book, before, out) && forall k :: k in book.keys ==> k in book.entities
      ensures OpenFound(book, before, out, open)
    {
      open := map[];
      OpenStart(book, before, out);
      for j := 0 to |book.keys|
        invariant OpenSummed(book, before, out, open, j)
      {
        var item := OpenItemOf(book, book.keys[j]);
        if item.Some? && item.value.field in before {
          var fld, negative := item.value.field, item.value.negative;
          OpenAdded(book, before, out, open, j, item.value);
          open := AddOpen(open, item.value.contact, Signed(before[fld], negative), Signed(Current(fld), negative));
        } else {
          OpenSkipped(book, before, out, open, j);
        }
      }
    }

    /** One contact's turn in `_contacts`. */
    method Contact(k: Key, open: map<Key, Pair>)
      requires Valid() && (k.kind.Customer? || k.kind.Vendor?) && Head(k, Balance) !in out
      requires OpenFound(book, before, out, open)
      requires OpenWritten(book, before, out)
      modifies this
      ensures Valid() && Grew(before, old(out), out) && writtenOnce == old(writtenOnce)
      ensures forall fld :: fld in out && fld !in old(out) ==> fld == Head(k, Balance)
      ensures ContactEq(book, before, out, k, factor(k))
    {
      ghost var was := out;
      var pair := OpenOfContact(open, k);
      assert OpenSummedFor(book, before, out, open, |book.keys|, k);
      var _ := Derive(Head(k, Balance), pair.1, pair.0, factor(k));
      OpenTermsStable(book, before, was, out, k);
    }

    // ---- Rollups ----

    /** An entity's own figure, scaled here unless it is written already. */
    method OwnFigure(t: Rollup, k: Key) returns (own: Pair)
      requires Valid() && IsRollup(t) && k in book.entities && k.kind == t.kind
      requires OwnsReady(book, before, out, t, factor)
      modifies this
      ensures Valid() && Grew(before, old(out), out) && writtenOnce == old(writtenOnce)
      ensures forall fld :: fld in out && fld !in old(out) ==> fld == Head(k, t.own)
      ensures OwnsReady(book, before, out, t, factor)
      ensures Head(k, t.own) in before ==> Head(k, t.own) in out
      ensures own.0 == Get(before, Head(k, t.own)) && own.1 == Get(out, Head(k, t.own)) && Whole(own.1)
    {
      if Head(k, t.own) in out {
        own := (Get(before, Head(k, t.own)), out[Head(k, t.own)]);
      } else {
        var pair := Leaf(Head(k, t.own), factor(k));
        own := if pair.Some? then pair.value else (0.0, 0.0);
        if pair.Some? { ScaledWhole(before[Head(k, t.own)], factor(k)); }
      }
    }

    /** The children's turn in `visit`, and what their totals come to. */
    method VisitKids(t: Rollup, kids: seq<Key>, depth: nat, done: map<Key, Pair>, ghost h: nat, ghost trees: bool,
                     ghost once: bool)
      returns (done': map<Key, Pair>, sum: Pair)
      requires Valid() && depth <= MAX_DEPTH && RollReady(book, before, out, t, done, factor, trees, once)
      requires KidsReady(book, kids, t.kind, h, once) && (trees ==> once && depth + h <= MAX_DEPTH)
      modifies this
      ensures Valid() && RollReady(book, before, out, t, done', factor, trees, once) && Whole(sum.1)
      ensures RollStep(book, before, old(out), out, t, done, done', if h > 0 then h - 1 else 0, once)
      ensures trees ==> KidsSummed(book, before, out, t, kids, |kids|, done', sum)
      ensures once ==> writtenOnce == old(writtenOnce)
      ensures KidsVisited(kids, |kids|, done, done', depth)
      decreases 65 - depth, 0, 0
    {
      done', sum := done, (0.0, 0.0);
      for i := 0 to |kids|
        invariant Valid() && RollReady(book, before, out, t, done', factor, trees, once) && Whole(sum.1)
        invariant RollStep(book, before, old(out), out, t, done, done', if h > 0 then h - 1 else 0, once)
        invariant trees ==> KidsSummed(book, before, out, t, kids, i, done', sum)
        invariant once ==> writtenOnce == old(writtenOnce)
        invariant KidsVisited(kids, i, done, done', depth)
      {
        assert kids[i] in kids;
        ghost var had := done';
        done', sum := VisitKid(t, kids, i, depth, done', sum, h, trees, once, old(out), done);
        KidsVisitedNext(kids, i, done, had, done', depth);
      }
    }

    /** One child's turn. */
    method VisitKid(t: Rollup, kids: seq<Key>, i: nat, depth: nat, had: map<Key, Pair>, sum: Pair,
                    ghost h: nat, ghost trees: bool, ghost once: bool, ghost start: Amounts, ghost done: map<Key, Pair>)
      returns (done': map<Key, Pair>, next: Pair)
      requires Valid() && depth <= MAX_DEPTH && i < |kids| && Whole(sum.1)
      requires RollReady(book, before, out, t, had, factor, trees, once)
      requires kids[i] in book.entities && kids[i].kind == t.kind
      requires (trees ==> once && depth + h <= MAX_DEPTH) && (once ==> h > 0 && Within(book, kids[i], h - 1))
      requires RollStep(book, before, start, out, t, done, had, if h > 0 then h - 1 else 0, once)
      requires trees ==> KidsSummed(book, before, out, t, kids, i, had, sum)
      modifies this
      ensures Valid() && RollReady(book, before, out, t, done', factor, trees, once) && Whole(next.1)
      ensures RollStep(book, before, start, out, t, done, done', if h > 0 then h - 1 else 0, once)
      ensures once ==> writtenOnce == old(writtenOnce)
      ensures trees ==> KidsSummed(book, before, out, t, kids, i + 1, done', next)
      ensures DoneGrows(had, done') && (depth < MAX_DEPTH ==> kids[i] in done')
      decreases MAX_DEPTH - depth, 3
    {
      ghost var g := if once then Height(book, kids[i], h - 1) else 0;
      var pair;
      done', pair := Visit(t, kids[i], depth + 1, had, g, trees, once);
      next := AddPair(sum, pair);
      AddPairWhole(sum, pair);
      RollStepNext(book, before, start, old(out), out, t, done, had, done', g, if h > 0 then h - 1 else 0, once);
      if trees { KidsSummedNext(book, before, old(out), out, t, kids, i, had, done', sum, factor); }
    }

    /** `visit`: an entity's total is its own figure and its children's totals, children first. */
    method Visit(t: Rollup, k: Key, depth: nat, done: map<Key, Pair>, ghost h: nat, ghost trees: bool, ghost once: bool)
      returns (done': map<Key, Pair>, pair: Pair)
      requires Valid() && depth <= 65 && RollReady(book, before, out, t, done, factor, trees, once)
      requires k in book.entities && k.kind == t.kind
      requires (trees ==> once && depth + h <= MAX_DEPTH) && (once ==> HasHeight(book, k, h))
      modifies this
      ensures Valid() && RollReady(book, before, out, t, done', factor, trees, once) && Whole(pair.1)
      ensures RollStep(book, before, old(out), out, t, done, done', h, once)
      ensures depth <= MAX_DEPTH ==> k in done'
      ensures trees ==> k in done' && pair == done'[k]
      ensures once ==> writtenOnce == old(writtenOnce)
      decreases 65 - depth, 2
    {
      if k in done {
        return done, done[k];
      }
      if depth > MAX_DEPTH {
        return done, (0.0, 0.0);
      }
      done', pair := VisitFresh(t, k, depth, done, h, trees, once);
    }

    /** A visit of an entity that is not done yet. One that is its own parent has its total written again by the
        visit it is in the middle of. */
    method VisitFresh(t: Rollup, k: Key, depth: nat, done: map<Key, Pair>, ghost h: nat, ghost trees: bool,
                      ghost once: bool)
      returns (done': map<Key, Pair>, pair: Pair)
      requires Valid() && depth <= MAX_DEPTH && RollReady(book, before, out, t, done, factor, trees, once)
      requires k in book.entities && k.kind == t.kind && k !in done
      requires (trees ==> once && depth + h <= MAX_DEPTH) && (once ==> HasHeight(book, k, h))
      modifies this
      ensures Valid() && RollReady(book, before, out, t, done', factor, trees, once) && Whole(pair.1)
      ensures RollStep(book, before, old(out), out, t, done, done', h, once)
      ensures k in done' && pair == done'[k]
      ensures once ==> writtenOnce == old(writtenOnce)
      ensures IsChild(book, k, k) && depth < MAX_DEPTH && Head(k, t.total) in before ==> !writtenOnce
      decreases 65 - depth, 1
    {
      var own, had, sum;
      own, had, sum := OwnAndKids(t, k, depth, done, h, trees, once);
      ghost var was := out;
      if trees { WithinMonotone(book, k, h, MAX_DEPTH); }
      pair := TotalFigure(t, k, own, sum, had, trees, once);
      done' := had[k := pair];
      RollStepTotal(book, before, old(out), was, out, t, done, had, k, pair, h, once);
    }

    /** The figures a total is made of. */
    method OwnAndKids(t: Rollup, k: Key, depth: nat, done: map<Key, Pair>, ghost h: nat, ghost trees: bool,
                      ghost once: bool)
      returns (own: Pair, had: map<Key, Pair>, sum: Pair)
      requires Valid() && depth <= MAX_DEPTH && RollReady(book, before, out, t, done, factor, trees, once)
      requires k in book.entities && k.kind == t.kind && k !in done
      requires (trees ==> once && depth + h <= MAX_DEPTH) && (once ==> HasHeight(book, k, h))
      modifies this
      ensures Valid() && RollReady(book, before, out, t, had, factor, trees, once)
      ensures RollStep(book, before, old(out), out, t, done, had, h, once)
      ensures own.0 == Get(before, Head(k, t.own)) && own.1 == Get(out, Head(k, t.own)) && Whole(own.1) && Whole(sum.1)
      ensures Head(k, t.own) in before ==> Head(k, t.own) in out
      ensures once ==> Head(k, t.total) !in out && writtenOnce == old(writtenOnce)
      ensures IsChild(book, k, k) && depth < MAX_DEPTH ==> k in had
      ensures trees ==> KidsSummed(book, before, out, t, ChildKeys(book, k, |book.keys|),
          |ChildKeys(book, k, |book.keys|)|, had, sum)
      decreases 65 - depth, 0, 1
    {
      own := OwnFigure(t, k);
      OwnStays(book, before, old(out), out, t, done, k, factor, trees, once);
      ghost var owned := out;
      KidsWithin(book, k, h, once);
      had, sum := VisitKids(t, ChildKeys(book, k, |book.keys|), depth, done, h, trees, once);
      RollStepFrom(book, before, old(out), owned, out, t, done, had, k, if h > 0 then h - 1 else 0, h, once);
      assert |ChildKeys(book, k, |book.keys|)| > 0 ==>
          ChildKeys(book, k, |book.keys|)[0] in ChildKeys(book, k, |book.keys|);
      if once { NotYetDone(book, before, owned, out, t, done, had, k, h, factor, trees); }
      if IsChild(book, k, k) { ChildListed(book, k, k); }
    }

    /** The last step of `visit`: the total, once the children are through. */
    method TotalFigure(t: Rollup, k: Key, own: Pair, sum: Pair, ghost had: map<Key, Pair>, ghost trees: bool,
                       ghost once: bool)
      returns (pair: Pair)
      requires Valid() && k in book.entities && k.kind == t.kind
      requires RollReady(book, before, out, t, had, factor, trees, once)
      requires own.0 == Get(before, Head(k, t.own)) && own.1 == Get(out, Head(k, t.own)) && Whole(own.1) && Whole(sum.1)
      requires Head(k, t.own) in before ==> Head(k, t.own) in out
      requires (trees ==> once && Within(book, k, MAX_DEPTH)) && (once ==> Head(k, t.total) !in out)
      requires trees ==> KidsSummed(book, before, out, t, ChildKeys(book, k, |book.keys|),
          |ChildKeys(book, k, |book.keys|)|, had, sum)
      modifies this
      ensures Valid() && RollReady(book, before, out, t, had[k := pair], factor, trees, once) && Whole(pair.1)
      ensures OnlyTotal(before, old(out), out, Head(k, t.total))
      ensures Head(k, t.total) in before ==> Head(k, t.total) in out
      ensures once ==> writtenOnce == old(writtenOnce)
      ensures Head(k, t.total) in before && Head(k, t.total) in old(out) ==> !writtenOnce
    {
      var newFormula, oldFormula := own.1 + sum.1, own.0 + sum.0;
      WholeAdd(own.1, sum.1);
      DerivedWhole(Get(before, Head(k, t.total)), newFormula, oldFormula, factor(k));
      var total := Derive(Head(k, t.total), newFormula, oldFormula, factor(k));
      pair := if total.Some? then total.value else (oldFormula, newFormula);
      FigureDone(book, before, old(out), out, t, had, k, newFormula, oldFormula, sum, pair, factor, trees, once);
    }

    // ---- The run ----

    /** One entity's turn in the first pass of `run`. */
    method Document(k: Key)
      requires Valid() && k in book.entities
      requires forall fld :: fld in out && Stage(book, before, fld) == 1 ==> fld.key != k
      requires UpTo(book, before, out, 1)
      modifies this
      ensures Valid() && Grew(before, old(out), out) && writtenOnce == old(writtenOnce)
      ensures NewIn(book, before, old(out), out, 1, k)
      ensures DocEq(book, before, out, k, factor(k))
    {
      OnlyFirst(book, before, out, k);
      if IsLineDoc(k.kind) {
        LineDoc(k);
      } else if k.kind.JournalEntry? {
        Journal(k);
      }
    }

    /** The first pass of `run`: documents with lines, and journals. */
    method Documents()
      requires Valid() && book.Valid() && out == map[]
      modifies this
      ensures Valid() && writtenOnce == old(writtenOnce)
      ensures UpTo(book, before, out, 1) && DocsEq(book, before, out, factor, |book.keys|)
    {
      for i := 0 to |book.keys|
        invariant Valid() && writtenOnce == old(writtenOnce)
        invariant UpTo(book, before, out, 1) && Within1(book, before, out, 1, i)
        invariant DocsEq(book, before, out, factor, i)
      {
        ghost var was := out;
        PrefixNext(book, i);
        Unstarted(book, before, out, 1, i);
        Document(book.keys[i]);
        DocsNext(book, before, was, out, factor, i);
      }
    }

    /** `_balances`. */
    method AllBalances(apps: map<Key, seq<LineRef>>)
      requires Valid() && book.Valid() && forall t :: AppsOf(apps, t) == Apps(book, before.Keys, t)
      requires UpTo(book, before, out, 1) && DocsEq(book, before, out, factor, |book.keys|)
      modifies this
      ensures Valid() && writtenOnce == old(writtenOnce) && UpTo(book, before, out, 2)
      ensures DocsEq(book, before, out, factor, |book.keys|) && BalancesEq(book, before, out, factor, |book.keys|)
    {
      for i := 0 to |book.keys|
        invariant Valid() && writtenOnce == old(writtenOnce)
        invariant UpTo(book, before, out, 2) && Within1(book, before, out, 2, i)
        invariant DocsEq(book, before, out, factor, |book.keys|) && BalancesEq(book, before, out, factor, i)
      {
        var k := book.keys[i];
        ghost var was := out;
        PrefixNext(book, i);
        if IsLineDoc(k.kind) {
          DocOf(book, before, out, factor, k);
          BalanceUnwritten(book, before, out, i);
          Balances(k, AppsOf(apps, k));
        }
        BalancesNext(book, before, was, out, factor, i);
      }
    }

    method AllPayers()
      requires Valid() && book.Valid() && UpTo(book, before, out, 2)
      requires DocsEq(book, before, out, factor, |book.keys|) && BalancesEq(book, before, out, factor, |book.keys|)
      modifies this
      ensures Valid() && writtenOnce == old(writtenOnce) && UpTo(book, before, out, 3) &&
          PaidUp(book, before, out, factor)
    {
      for i := 0 to |book.keys|
        invariant Valid() && writtenOnce == old(writtenOnce)
        invariant UpTo(book, before, out, 3) && Within1(book, before, out, 3, i)
        invariant DocsEq(book, before, out, factor, |book.keys|) && BalancesEq(book, before, out, factor, |book.keys|)
        invariant PayersEq(book, before, out, factor, i)
      {
        ghost var was := out;
        if IsPayer(book.keys[i].kind) {
          PayerReadyNow(book, before, out, factor, i);
          Payer(book.keys[i]);
        }
        PayersNext(book, before, was, out, factor, i);
      }
    }

    method AllDeposits()
      requires Valid() && book.Valid() && UpTo(book, before, out, 3) && PaidUp(book, before, out, factor)
      modifies this
      ensures Valid() && writtenOnce == old(writtenOnce) && UpTo(book, before, out, 4)
      ensures PaidUp(book, before, out, factor) && DepositsEq(book, before, out, factor, |book.keys|)
    {
      for i := 0 to |book.keys|
        invariant Valid() && writtenOnce == old(writtenOnce)
        invariant UpTo(book, before, out, 4) && Within1(book, before, out, 4, i)
        invariant PaidUp(book, before, out, factor) && DepositsEq(book, before, out, factor, i)
      {
        ghost var was := out;
        if book.keys[i].kind.Deposit? {
          TotalsNow(book, before, out, factor, i);
          DepositUnwritten(book, before, out, i);
          Deposit(book.keys[i]);
        }
        DepositsNext(book, before, was, out, factor, i);
      }
    }

    /** `_contacts`, up to the rollups. */
    method Contacts()
      requires Valid() && book.Valid() && UpTo(book, before, out, 4)
      requires PaidUp(book, before, out, factor) && DepositsEq(book, before, out, factor, |book.keys|)
      modifies this
      ensures Valid() && writtenOnce == old(writtenOnce) && UpTo(book, before, out, 5) &&
          Settled(book, before, out, factor)
    {
      SettledNow(book, before, out, factor);
      var open := OpenBalances();
      for i := 0 to |book.keys|
        invariant Valid() && writtenOnce == old(writtenOnce)
        invariant UpTo(book, before, out, 5) && Within1(book, before, out, 5, i)
        invariant PaidUp(book, before, out, factor) && DepositsEq(book, before, out, factor, |book.keys|)
        invariant ContactsEq(book, before, out, factor, i) && OpenFound(book, before, out, open)
      {
        var k := book.keys[i];
        ghost var was := out;
        SettledNow(book, before, out, factor);
        if k.kind.Customer? || k.kind.Vendor? {
          ContactUnwritten(book, before, out, i);
          Contact(k, open);
        }
        OpenFoundStays(book, before, was, out, open);
        ContactsNext(book, before, was, out, factor, i);
      }
    }

    /** One root's turn in `_rollup`. */
    method VisitRoot(t: Rollup, k: Key, done: map<Key, Pair>, ghost trees: bool, ghost once: bool)
        returns (done': map<Key, Pair>)
      requires Valid() && RollReady(book, before, out, t, done, factor, trees, once) &&
          (trees ==> once && Forest(book, t.kind)) && (once ==> Grounded(book, t.kind))
      requires k in book.entities && k.kind == t.kind
      modifies this
      ensures Valid() && RollReady(book, before, out, t, done', factor, trees, once)
      ensures OnlyRollup(old(out), out, t) && DoneGrows(done, done') && k in done'
      ensures once ==> writtenOnce == old(writtenOnce)
    {
      ghost var h := HeightNow(book, k, trees, once);
      var pair;
      done', pair := Visit(t, k, 0, done, h, trees, once);
    }

    /** `_rollup`: visit every entity of the kind. */
    method RollUp(t: Rollup, ghost trees: bool, ghost once: bool)
      requires Valid() && book.Valid() && IsRollup(t) && OwnsReady(book, before, out, t, factor)
      requires (trees ==> once && Forest(book, t.kind)) && (once ==> Grounded(book, t.kind))
      requires forall fld :: fld in out ==> !IsTotal(t, fld)
      modifies this
      ensures Valid() && Grew(before, old(out), out) && RollsDone(book, before, out, t, factor, trees)
      ensures OnlyRollup(old(out), out, t) && (once ==> writtenOnce == old(writtenOnce))
    {
      var done: map<Key, Pair> := map[];
      for i := 0 to |book.keys|
        invariant Valid() && RollReady(book, before, out, t, done, factor, trees, once)
        invariant OnlyRollup(old(out), out, t) && (once ==> writtenOnce == old(writtenOnce))
        invariant VisitedUpTo(book, t, done, i)
      {
        PrefixNext(book, i);
        ghost var was, had := out, done;
        if book.keys[i].kind == t.kind {
          done := VisitRoot(t, book.keys[i], done, trees, once);
          OnlyRollupNext(old(out), was, out, t);
        }
        VisitedNext(book, t, had, done, i);
      }
      RollsComplete(book, before, out, t, done, factor, trees, once);
    }

    // ---- Everything left ----

    /** One figure of `_home`. */
    method HomeFigure(fld: Field, base: Field, f: real)
      requires Valid() && fld !in out && HomeBase(fld) == Some(base)
      requires StagesWritten(book, before, out)
      requires base in out ==> Stage(book, before, base) < REST
      modifies this
      ensures Valid() && Grew(before, old(out), out) && writtenOnce == old(writtenOnce)
      ensures forall other :: other in out && other !in old(out) ==> other == fld && IsHome(book, before, fld)
      ensures fld in before && IsHome(book, before, fld) ==> RestEq(book, before, out, fld, f)
    {
      if base in before && fld.key in book.entities && book.entities[fld.key].rate.Some? {
        var rate := book.entities[fld.key].rate.value;
        var _ := Derive(fld, Extended(rate, Current(base)), Extended(rate, before[base]), f);
      }
    }

    /** A figure `_fallback` comes to: scaled unless it is written already. */
    method RestFigure(fld: Field, f: real)
      requires Valid() && fld in before && fld !in out && !IsHome(book, before, fld)
      modifies this
      ensures Valid() && Grew(before, old(out), out) && writtenOnce == old(writtenOnce)
      ensures forall other :: other in out && other !in old(out) ==> other == fld
      ensures RestEq(book, before, out, fld, f)
    {
      if IsPrice(fld) {
        Set(fld, ScaledPrice(before[fld], PriceStep(book, fld), f));
      } else {
        var _ := Leaf(fld, f);
      }
    }

    /** `_home`. */
    method Home(k: Key, f: real)
      requires Valid() && StagesWritten(book, before, out)
      requires forall fld :: fld in out && Stage(book, before, fld) == REST ==> fld.key != k
      modifies this
      ensures Valid() && Grew(before, old(out), out) && writtenOnce == old(writtenOnce)
      ensures NewOnRest(book, before, old(out), out, k) && HomesDone(book, before, out, k, f)
      ensures forall fld :: fld in out && fld !in old(out) ==> IsHome(book, before, fld)
    {
      HomeFigure(Head(k, HomeBalance), Head(k, Balance), f);
      ghost var homed := out;
      HomeFigure(Head(k, HomeTotalAmt), Head(k, TotalAmt), f);
      if Head(k, HomeBalance) in before && IsHome(book, before, Head(k, HomeBalance)) {
        RestStays(book, before, homed, out, Head(k, HomeBalance), f);
      }
      HomesNew(book, before, old(out), out, k);
    }

    /** One figure's turn in `_fallback`. */
    method FallbackFigure(k: Key, f: real, ghost start: Amounts, ghost todo: set<Field>, fld: Field)
      requires Valid() && StagesWritten(book, before, out) && NewOnRest(book, before, start, out, k)
      requires fld in todo && fld in before && fld.key == k && HomesWritten(book, before, out, k)
      requires RestExcept(book, before, out, k, todo, f)
      modifies this
      ensures Valid() && Grew(before, old(out), out) && writtenOnce == old(writtenOnce)
      ensures NewOnRest(book, before, start, out, k) && HomesWritten(book, before, out, k)
      ensures StagesWritten(book, before, out) && RestExcept(book, before, out, k, todo - {fld}, f)
    {
      if fld !in out {
        assert Stage(book, before, fld) >= REST;
        RestFigure(fld, f);
      }
      RestExceptNext(book, before, old(out), out, k, todo, fld, f);
    }

    /** `_fallback`: every figure of the entity no rule has come to. */
    method Fallback(k: Key, f: real, ghost start: Amounts)
      requires Valid() && StagesWritten(book, before, out) && NewOnRest(book, before, start, out, k)
      requires RestExcept(book, before, out, k, FieldsOf(before, k), f)
      requires HomesWritten(book, before, out, k)
      modifies this
      ensures Valid() && Grew(before, old(out), out) && writtenOnce == old(writtenOnce)
      ensures NewOnRest(book, before, start, out, k) && RestOf(book, before, out, k, f)
    {
      var todo := FieldsOf(before, k);
      while todo != {}
        invariant Valid() && Grew(before, old(out), out) && writtenOnce == old(writtenOnce) &&
            StagesWritten(book, before, out)
        invariant todo <= before.Keys && forall fld :: fld in todo ==> fld.key == k
        invariant NewOnRest(book, before, start, out, k) && HomesWritten(book, before, out, k)
        invariant RestExcept(book, before, out, k, todo, f)
        decreases todo
      {
        var fld :| fld in todo;
        FallbackFigure(k, f, start, todo, fld);
        todo := todo - {fld};
      }
    }

    /** `_home` and `_fallback` of one entity. */
    method Rest(k: Key, f: real)
      requires Valid() && StagesWritten(book, before, out)
      requires forall fld :: fld in out && Stage(book, before, fld) == REST ==> fld.key != k
      modifies this
      ensures Valid() && Grew(before, old(out), out) && writtenOnce == old(writtenOnce)
      ensures NewOnRest(book, before, old(out), out, k) && RestOf(book, before, out, k, f)
    {
      Home(k, f);
      RestStarts(book, before, old(out), out, k, f);
      Fallback(k, f, old(out));
    }

    method CustomerRollup(ghost once: bool)
      requires Valid() && book.Valid() && UpTo(book, before, out, 5) && Settled(book, before, out, factor)
      requires once ==> Grounded(book, Customer)
      modifies this
      ensures Valid() && Settled(book, before, out, factor) && OnlyRollup(old(out), out, CUSTOMERS)
      ensures RollsDone(book, before, out, CUSTOMERS, factor, Forest(book, Customer))
      ensures once ==> writtenOnce == old(writtenOnce)
    {
      ForestGrounded(book, Customer);
      CustomersReady(book, before, out, factor);
      RollUp(CUSTOMERS, Forest(book, Customer), Forest(book, Customer) || once);
      SettledStays(book, before, old(out), out, factor);
    }

    method AccountRollup(ghost was: Amounts, ghost once: bool)
      requires Valid() && book.Valid() && UpTo(book, before, was, 5) && OnlyRollup(was, out, CUSTOMERS)
      requires once ==> Grounded(book, Account)
      modifies this
      ensures Valid() && Grew(before, old(out), out) && OnlyRollup(old(out), out, ACCOUNTS)
      ensures RollsDone(book, before, out, ACCOUNTS, factor, Forest(book, Account))
      ensures once ==> writtenOnce == old(writtenOnce)
    {
      ForestGrounded(book, Account);
      AccountsReady(book, before, was, out, factor);
      RollUp(ACCOUNTS, Forest(book, Account), Forest(book, Account) || once);
    }

    method AllRollups(ghost once: bool)
      requires Valid() && book.Valid() && UpTo(book, before, out, 5) && Settled(book, before, out, factor)
      requires once ==> Grounded(book, Customer) && Grounded(book, Account)
      modifies this
      ensures Valid() && UpTo(book, before, out, 6)
      ensures AllStages(book, before, out, factor, Forest(book, Customer), Forest(book, Account))
      ensures once ==> writtenOnce == old(writtenOnce)
    {
      CustomerRollup(once);
      ghost var mid := out;
      AccountRollup(old(out), once);
      BothRolledUp(book, before, old(out), mid, out, factor, Forest(book, Customer), Forest(book, Account));
    }

    method AllRest(ghost customers: bool, ghost accounts: bool)
      requires Valid() && book.Valid() && UpTo(book, before, out, 6)
      requires AllStages(book, before, out, factor, customers, accounts)
      requires forall fld :: fld in before ==> fld.key in book.entities
      modifies this
      ensures Valid() && writtenOnce == old(writtenOnce) && AllStages(book, before, out, factor, customers, accounts)
      ensures RestsEq(book, before, out, factor, |book.keys|)
    {
      for i := 0 to |book.keys|
        invariant Valid() && writtenOnce == old(writtenOnce)
        invariant AllStages(book, before, out, factor, customers, accounts)
        invariant RestWithin(book, before, out, i) && RestsEq(book, before, out, factor, i)
      {
        ghost var was := out;
        StagesDone(book, before, out, factor, customers, accounts);
        RestUnstarted(book, before, out, i);
        Rest(book.keys[i], factor(book.keys[i]));
        RestsNext(book, before, was, out, factor, i);
        RestWithinNext(book, before, was, out, i);
        AllStagesStay(book, before, was, out, factor, customers, accounts);
      }
    }

    /** The passes of `run` before the rollups. */
    method Settle()
      requires Valid() && book.Valid() && out == map[]
      modifies this
      ensures Valid() && writtenOnce == old(writtenOnce) && UpTo(book, before, out, 5) &&
          Settled(book, before, out, factor)
    {
      Documents();
      var apps := Applications();
      AllBalances(apps);
      AllPayers();
      AllDeposits();
      Contacts();
    }

    /** `run`. Every figure ends up as its equation says, and no figure is written twice, unless the parents of
        customers or accounts run in circles: how deep they go does not matter. */
    method Run() returns (scrubbed: Amounts)
      requires Valid() && book.Valid() && out == map[] && writtenOnce
      requires forall fld :: fld in before ==> fld.key in book.entities
      modifies this
      ensures scrubbed == out && Scrubbed(book, before, scrubbed, factor)
      ensures FiguresTold(book, before, scrubbed, factor)
      ensures Grounded(book, Customer) && Grounded(book, Account) ==> writtenOnce
    {
      Settle();
      AllRollups(Grounded(book, Customer) && Grounded(book, Account));
      AllRest(Forest(book, Customer), Forest(book, Account));
      RunDone(book, before, out, factor);
      EveryFigure(book, before, out, factor);
      scrubbed := out;
    }
  }

  /** The price loop of `_line_leaf`: move the price by its last place, five times at most. */
  method RepriceLine(qty: real, amount: real, price: real, step: real, f: real)
      returns (newPrice: real, newAmount: real)
    requires step > 0.0
    ensures (newPrice, newAmount) == Reprice(qty, amount, price, step, f)
  {
    newPrice := Quantize(price * f, step);
    var residual := Residual(amount, Extended(qty, price), f);
    newAmount := Extended(qty, newPrice) + residual;
    var direction := if price >= 0.0 then step else -step;
    for i := 0 to 5
      invariant newAmount == Extended(qty, newPrice) + residual
      invariant NudgePrice(qty, amount, residual, newPrice, direction, 5 - i) == Reprice(qty, amount, price, step, f)
    {
      if !(amount != 0.0 && newAmount == amount) { break; }
      newPrice := newPrice + direction;
      newAmount := Extended(qty, newPrice) + residual;
    }
  }
}
