# Money that adds up: a Dafny model of the ledger's exact-cents core

This project models the parts of the repository where money has to add up to the cent, and proves what those
parts promise: the amount scrubber that rewrites a recorded book without breaking a rule it kept, the book's
open items and its reverse-and-repost corrections, the settlement, payroll and sales-order builders, the bank
matcher, and the CSV printer and reader. `dafny verify dfyconfig.toml` checks all of it.

## How it is laid out

- **The scrubber** (`tools/scrub-fixtures.py`). `FixtureBook` is the shape of a book and the address of every
  figure, `FixtureRules` the rules of `check_invariants`. `ScrubSpec` gives one equation for every figure, and
  `Scrubber` is the class that rewrites the figures in place and is proved against the equations by way of
  `ScrubSteps`, `ScrubStability`, `ScrubWhole` and `ScrubStages`. `ScrubForecast` works a document's new figures out
  from the original and its factor alone, and with it `ScrubLines`, `ScrubTrees` and `ScrubDeposits` say exactly when
  the rules of documents, rollups and deposits are kept. `ScrubTheorem` puts them together: every rule, kept if and
  only if its condition holds. `ScrubLimits` reads single conditions off and gives books that break the rules.
  `ScrubFigures` says of every figure of a scrubbed book what it is, from the original figures and the factor.
  `Allocate` is the largest-remainder split, `Cents` the rounding, `Names` and `Matcher` the name mapper and the name
  matcher.
- **The book** (`apps/ledger/src/books.rs`). `Documents`, `OpenItems` (open items, aging, and their tie to the
  control account), `Aging` (both told from the documents), `Overuse` (no document used beyond its total), `Journal`
  (reversals and live entries), `Postings` (what stands of a document, and what a revision adds, entry by entry),
  `Corrections` (the versioned store with its append-only journal), `Terms` (due dates), `Numbers` (sequences).
- **The builders**. `Authnet` (settlement files) and `AuthnetRows` (batches and documents told from the rows),
  `Payroll` (a pay run's journal document, with `Ordering` for sorted maps) and `PayDocument` (the same from the pay
  lines), `SalesOrders` (invoices made from orders) and `Conversions` (an invoice told from order and request).
- **The bank** (`apps/ledger/src/bank.rs`). `Bank` says what every step does, `BankSafety` what every run keeps,
  `BankRules` which match rule a line falls under and what that leaves, told from the entries, and `BankLedger` is the
  class whose methods are proved against the three.
- **CSV**. `Csv` is the printer, the reader, and what the reader undoes (section 2 of RFC 4180).

A method with loops is proved equal to a specification function, or to the declared effect on its object's state;
the properties are lemmas about those functions and states. What such a function computes is also stated a second time,
from the data alone and without naming it, in the modules that tell it.

## How the source is read

- Money is whole cents as `int` in the ledger, and an exact `real` number of cents in the scrubber, where
  fractions of a cent do occur. `Decimal` is exact; its 28-digit context and the last conversion to a JSON number
  are not modelled. Checked `i64` arithmetic is taken to succeed. Dates are day numbers except in `Terms`.
- `q2` and `round_money` round to the nearest cent, ties away from zero.
- A figure of a recorded book is a field address; a figure that is absent, or not a number, has no entry. The
  scrubber's `new` and `handled` are one map of the figures written so far. Entities are walked in a fixed
  enumeration of their keys. An entity's factor is any function of its key: the digest behind it is not modelled.
- The recursion of `_rollup` stops at depth 64, as in the source; a rollup keeps its equation when the parents form
  trees within that depth, and no figure is written twice unless parents run in circles.
- The posting rules (`post`), preparing a document (`prepare`) and the chart's word on a line (`accepts`) are
  parameters. Of the first it is assumed that an entry names its document and that a credit posts the same whatever
  it is applied to; of the second that it leaves id, kind and voidedness alone. Posting a bank line is modelled in
  full.
- Entries, bank lines and statements are known by their place, which is the order their ids are made in. Live
  entries are taken in that order.
- `Corrections.Ledger` keeps, as ghost state, the context each document was last posted in.
- Random ids, the clock, SQL and files are parameters or left out.

## What the proofs brought out

Each is a lemma with the failing input and, where one exists, the exact condition.

- A subtotal line that leaves follow, a document with tax lines and no stated total of the tax, a document with
  nothing to pay and nothing applied, a group, discount or subtotal that states no amount, an account whose
  sub-account has no total, and a deposit of something scrubbed after it can each lose their rule under scrubbing.
  `ScrubTheorem.Preservable` tells from the original and the factors exactly when, and `ScrubLimits` has a book for
  each.
- A document of two cents or more that is part paid can come out at one cent and paid in full
  (`ScrubLimits.PartPaidLost`).
- Two applications of one payment to one target pass `update_document` one by one and overpay it together
  (`Overuse.TwoToOneTarget`).
- Payments draw on a credit with negative amounts. The checks of `update_document` add such draws to what a credit
  applies, where `open_items` takes them away, and bound what is applied to a target from above only. So a credit
  drawn on by 6 of 10 may still be edited to apply 10 (`Overuse.DrawnCreditOverused`), and a payment may draw 100 on a
  credit of 10 (`Overuse.DrawBeyondCredit`). An edit is safe exactly when every document has room for all it moves
  (`Overuse.EditKeepsIffRoom`), and `Overuse.AtRisk` says which documents the checks leave in doubt.
- An overpaid invoice reads as open by what it is overpaid, so `apply_credit` takes more to it
  (`Overuse.OverpaidTakesCredit`).
- A first invoice numbered below 1000 lowers where a fresh sequence starts (`Numbers.SeedFalls`).
- A transaction listed twice in a settlement file is in its batch's net twice and saved once, so its amount stays in
  1160 (`Authnet.ListedTwice`).
- A contact whose column sums cancel disappears from the aging rows, so a bucket column can differ from its rows
  (`OpenItems.DroppedRowShows`).
- Voiding an invoice that billed an order's discount alone leaves more taken from the order than it is worth
  (`SalesOrders.VoidedDiscountOvertakes`), and part conversions can leave a cent that no quantity is left to bill
  (`SalesOrders.PartsLeaveACent`).
- `confirm_proposal` passes the amount without its sign, so a confirmed money-out line debits the bank account. The
  comment on `post_bank_line` (`apps/ledger/src/post.rs:771-778`) says a negative amount is money out; the model
  follows the code, and the confirmed entry agrees with the bank exactly when no money went out
  (`BankSafety.ConfirmedNet`). A zero proposal posts nothing and so stops the program.
- A zero bank line exact-matches a journal line that moved the account the other way (`BankSafety.ExactClears`).
- A fee match clears the settlement and marks the line before it posts the fee; when the journal refuses the fee the
  line stays matched with no fee posted (`BankSafety.FeePosted`).
- `create` saves before it posts, so an entry the journal refuses leaves a saved document with nothing live
  (`Corrections.Ledger.Create`).
- A last record that is one empty field is lost when no line end follows it (`Csv.LastEndOptional`).
- An entity that is its own parent has its rollup total written more than once (`Scrubber.AmountScrubber.VisitFresh`).

## Model

| member | source | states |
|---|---|---|
| Scrubber.AmountScrubber.Run | tools/scrub-fixtures.py:1020-1037 | Every figure of the rewritten book satisfies its equation and is what the original figures and the factors say (`FiguresTold`), and no figure is written twice unless the parents of customers or accounts run in circles. |
| Scrubber.AmountScrubber.VisitFresh | tools/scrub-fixtures.py:964-982 | A visit finishes its entity and, in trees, everything below it exactly once; an entity that is its own parent has its total written again. |
| ScrubFigures.EveryFigure | tools/scrub-fixtures.py:651-1037 | Every figure of a scrubbed book, told without its equation: an amount of its own is the old one times the factor to the cent, or a cent off where that leaves it as it was; a priced line has its price scaled to its last place and moved on only while the amount stayed; a figure with a formula differs from it by what it differed, scaled; a part is within a cent of its share; what is applied is its share, kept off nothing and off all; a home figure follows at the recorded rate. |
| ScrubFigures.JournalScales | tools/scrub-fixtures.py:796-823 | The debits of a journal come to what they came to times the factor within half a cent, or to exactly a cent more than they were where rounding would have left them; the credits differ from them by what they differed, scaled. |
| ScrubFigures.RepriceTells | tools/scrub-fixtures.py:674-694 | A repriced line has its price scaled to its last place and moved on the least number of times, five at most, that changes the amount; its amount is quantity times that price and the scaled difference. |
| ScrubFigures.StepTells | tools/scrub-fixtures.py:627-628 | A price moves by one unit of its last decimal place, a cent at most. |
| ScrubFigures.BalanceTells | tools/scrub-fixtures.py:841-869 | What is applied to a document is all of the new base where it was all, nothing where nothing, and else its share to the cent, at least a cent and at least a cent short of all; the lines are parts of it, and the open figures follow. |
| ScrubFigures.AppsTell | tools/scrub-fixtures.py:827-839 | The applications of a document are exactly the payment lines that state an amount and link it alone, each once. |
| ScrubTheorem.Preserved | tools/scrub-fixtures.py:1045-1191 | A rule the original book keeps is kept by the scrubbed book if and only if its condition on the original and the factors holds; a rollup where its entities form trees within the recursion limit. |
| ScrubTheorem.PlainlyPreserved | tools/scrub-fixtures.py:1045-1191 | In the usual case, told without working any figure out, every kept rule is kept whatever the factors. |
| ScrubLines.LineRuleExactly | tools/scrub-fixtures.py:696-869 | Each rule of a line document survives if and only if what the scrubber adds up beyond the rule comes out as one amount scaled, or, where the figure is not stated, the rule comes to nothing. |
| ScrubTrees.RollupExactly | tools/scrub-fixtures.py:954-982 | A rollup's rule survives if and only if what its children without a total hand up comes out as one amount scaled. |
| ScrubDeposits.DepositLineExactly | tools/scrub-fixtures.py:892-909 | A deposit line keeps equal to the total it brings if and only if it states its amount and that total was scrubbed before it, or the total comes out as it was. |
| ScrubDeposits.DepositWholeExactly | tools/scrub-fixtures.py:892-917 | A deposit's figure is whole cents if and only if the forecast of it is. |
| ScrubLines.ZeroResidual | tools/scrub-fixtures.py:664-672 | A derived figure that equalled its formula equals the new formula: a zero residual stays zero, whatever the factor. |
| ScrubLines.RepriceConsistent | tools/scrub-fixtures.py:674-694 | A line that was quantity times price is so after repricing, however often the price is nudged. |
| ScrubTheorem.JournalRuleKept | tools/scrub-fixtures.py:796-823 | Debits equal to credits stay equal, each side spread by largest remainder; what the sides come to is `ScrubFigures.JournalScales`. |
| ScrubLines.AppliedTotal | tools/scrub-fixtures.py:841-869 | The payers' rewritten lines sum to exactly the new applied total, unless nothing pays a document that had nothing to pay and comes out with something. |
| ScrubLines.BalanceRuleKept | tools/scrub-fixtures.py:841-869 | The balance rule is kept if and only if a zero base with nothing applied comes out as a zero base, the new base being worked out from the original and the factor. |
| ScrubLines.RemainingCreditRuleKept | tools/scrub-fixtures.py:841-869 | The same for the remaining credit, chained through the balance: the two residuals cancel because rounding is odd. |
| ScrubForecast.BaseForeseen | tools/scrub-fixtures.py:696-794 | A line document's new total and base are what the original figures and the factor alone say they will be. |
| ScrubLimits.PaymentShape | tools/scrub-fixtures.py:825-869 | Paid in full stays paid in full, net zero stays net zero, and part paid stays strictly part paid if and only if the new base is at least two cents. |
| ScrubLimits.PartPaidLost | tools/scrub-fixtures.py:855-869 | A document of two cents, one of them paid, that comes out paid in full. |
| ScrubLimits.SubtotalExactly | tools/scrub-fixtures.py:721-722 | A subtotal that leaves follow survives if and only if those leaves, rounded one by one, come to their sum rounded once; told before the run. |
| ScrubLimits.TotalExactly | tools/scrub-fixtures.py:754-794 | A document's total survives if and only if the unstated groups and the tax the checker leaves out come out together as if scaled in one amount; told before the run. |
| ScrubLimits.BalanceExactly | tools/scrub-fixtures.py:850-869 | In a scrubbed book the balance rule survives if and only if a document with nothing to pay and nothing applied is forecast to come out with nothing to pay. |
| ScrubLimits.SubtotalInTheMiddle | tools/scrub-fixtures.py:721-722 | A book whose subtotal rule scrubbing breaks. |
| ScrubLimits.ZeroBaseBroken | tools/scrub-fixtures.py:850-856 | A book whose balance rule scrubbing breaks. |
| ScrubLimits.TaxUnstated | tools/scrub-fixtures.py:754-794 | A book whose total rule scrubbing breaks. |
| ScrubLimits.UnstatedBroken | tools/scrub-fixtures.py:696-752 | A book whose subtotal, discount and group without amounts lose their rules. |
| ScrubLimits.ChildWithoutTotal | tools/scrub-fixtures.py:964-982 | A book whose rollup rule scrubbing breaks, because a sub-account states no total. |
| ScrubLimits.DepositTooEarly | tools/scrub-fixtures.py:892-909 | A book whose deposit line scrubbing breaks, because what it brings is scrubbed later. |
| Allocate.AllocationSum | tools/scrub-fixtures.py:566-592 | The parts sum to exactly the new total, if and only if that total is whole cents (they sum to it truncated otherwise). |
| Allocate.RemainderBounds | tools/scrub-fixtures.py:576-591 | The remainder is never negative, so nothing is ever taken back, and never more than the number of parts; for a total in whole cents it is less, and less than the number of parts with a fraction. |
| Allocate.RemainderReached | tools/scrub-fixtures.py:576-591 | For a total of half a cent below nothing it is the number of parts. |
| Allocate.AllocationNearShare | tools/scrub-fixtures.py:566-592 | Every part is whole cents and less than a cent from its share: in proportion, or the same for all where the parts net to nothing. |
| Allocate.AllocationKeepsZero | tools/scrub-fixtures.py:566-592 | A zero part stays zero when the old total is not. |
| Allocate.AllocationMonotone | tools/scrub-fixtures.py:566-592 | A strictly larger part never gets less than a smaller one when old and new totals agree in sign. |
| Allocate.LargestRemainder | tools/scrub-fixtures.py:576-591 | Every part is its share floored or a cent more, and the cents go to the largest fractions of a cent, to the earlier of two as large. |
| Names.NameMapper.FakeAll | tools/scrub-fixtures.py:331-364 | Over any sequence of calls answers are equal exactly for equal names, never a reserved original, and earlier answers stay. |
| Names.NameMapper.FakeFor | tools/scrub-fixtures.py:331-364 | A new name gets the first free slot from its own on, in the first round not wholly taken. |
| Names.FullRoundsBounded | tools/scrub-fixtures.py:340-358 | There are at most as many full rounds as taken names, so the search over unbounded rounds ends. |
| Names.CandidatesDiffer | tools/scrub-fixtures.py:309-320 | No two slots or rounds give the same fake. |
| Names.CandidateSays | tools/scrub-fixtures.py:340-351 | A fake is a first and a last word with a space between, followed by the number of its round from the second on. |
| Matcher.NameMatcher.Find | tools/scrub-fixtures.py:410-426 | The hits are bounded listed names, increasing and disjoint, none with a longer name at its start, and no name starts at a place no hit covers. |
| Matcher.NameMatcher.OneAnswer | tools/scrub-fixtures.py:410-426 | Those conditions have one answer: what `find` returns is the only list of hits that meets them. |
| Matcher.ReplaceNames | tools/scrub-fixtures.py:1220-1230 | The text is rebuilt with exactly the hit spans replaced, each by its name's fake. |
| Matcher.SpansOnly | tools/scrub-fixtures.py:1220-1230 | Replacing every name by itself gives the text back: nothing outside the spans is touched. |
| Matcher.OccursTells | tools/scrub-fixtures.py:385-416 | A name occurs where the text has it; one of at most seven characters, spaces at its ends not counted, only where no letter or digit of the text touches a letter or digit at its ends. |
| OpenItems.OpenItemsTie | apps/ledger/src/books.rs:1159-1283 | The signed open items sum to the control balance plus exactly what is applied to nothing in view. |
| OpenItems.PlacedTies | apps/ledger/src/books.rs:1144-1283 | When every money-moving application names an opener in view (or, from a bill payment, a later document), they sum to the control balance to the cent. |
| OpenItems.AgingTies | apps/ledger/src/books.rs:1328-1367 | The aging total column ties to the control account exactly as the open items do. |
| OpenItems.KeptRowsMatch | apps/ledger/src/books.rs:1328-1367 | The total column equals its kept rows; a bucket column differs by exactly what the dropped zero rows hold in it. |
| OpenItems.DroppedRowShows | apps/ledger/src/books.rs:1353-1353 | A contact whose dropped row makes two bucket columns differ from their rows. |
| Aging.OpenIsOwed | apps/ledger/src/books.rs:1159-1283 | What a document leaves open, from the documents in force: an invoice or bill its total less what is paid to it, a credit its total less what it gave away and what payments drew on it, a bill payment what it has not given to a bill that exists. |
| Aging.ItemsTell | apps/ledger/src/books.rs:1159-1283 | The open items are exactly the documents that leave something open, in their order, each with its contact, the day it is owed since (its due date, else its own), its worth, use and rest. |
| Aging.ColumnTells | apps/ledger/src/books.rs:1286-1323 | Each column of each contact is the sum of what its documents leave open whose days past due are at most 0, 1 to 30, 31 to 60, 61 to 90, or more. |
| Aging.Report | apps/ledger/src/books.rs:1328-1367 | From the documents: a row for exactly the contacts that owe something in all, and every column of every row and of the totals so. |
| Aging.TotalByKind | apps/ledger/src/books.rs:1001-1020 | A document is worth its items, accounts and shipping, less its discounts, plus its tax. |
| Overuse.EditKeepsIffRoom | apps/ledger/src/books.rs:1590-1632 | Whatever the books record, draws on credits included, an edit leaves no document used beyond its total if and only if every document, itself included, has room for all the edit moves; told from the documents before it. |
| Overuse.CheckedEditKeepsIff | apps/ledger/src/books.rs:1590-1632 | The checks of an edit keep every document within its total but those at risk (drawn on more than before or negatively, named twice, given back to), and those if and only if they have room. |
| Overuse.EditKeepsNoOveruse | apps/ledger/src/books.rs:1590-1632 | So the checks are enough where kinds are named rightly, no application draws on a credit, each target is named once, no negative application is taken back and a credit's links are not negative. |
| Overuse.DrawnCreditOverused | apps/ledger/src/books.rs:1590-1605 | A credit that a payment draws on, edited past its checks to be used 16 of 10. |
| Overuse.DrawBeyondCredit | apps/ledger/src/books.rs:1608-1631 | A payment edited past its checks to draw 100 on a credit of 10. |
| Overuse.TwoToOneTarget | apps/ledger/src/books.rs:1608-1631 | Two applications to one invoice pass the checks one by one and overpay it. |
| Overuse.CheckEdit | apps/ledger/src/books.rs:1590-1632 | The checks pass if and only if the document's own use fits and every application's target is saved, live and has room for it alone. |
| Overuse.CreditKeepsNoOveruse | apps/ledger/src/books.rs:1694-1782 | Applying a credit that fits both rows leaves no document used beyond its total if and only if none was before. |
| Overuse.OverpaidTakesCredit | apps/ledger/src/books.rs:1736-1760 | An invoice paid 14 of 10 takes a credit of 4 and is used 18. |
| Journal.PostedReversal | apps/ledger/src/store.rs:1706-1724 | Reversing the first live entry of a document cancels it account by account, leaves the rest of its live entries, and touches no other document's. |
| Journal.ReversedBalanced | apps/ledger/src/types.rs:343-381 | A reversal balances as its entry does. |
| Postings.LiveStands | apps/ledger/src/store.rs:1706-1724 | The live entries of a document are exactly those of it that are no reversals and that no entry of it reverses. |
| Postings.RestatedBy | apps/ledger/src/books.rs:1505-1533 | What a revision adds: for each entry that stood, in order, its reversal on its own date, line by line with the sides swapped, under its own memo or the voiding reason; then the new entry under the new version. |
| Corrections.ReverseAll | apps/ledger/src/books.rs:1471-1534 | Afterwards nothing of the document is live; it is refused if and only if a period or the chart refuses a reversal, never for balance. |
| Corrections.Ledger.CommitRevision | apps/ledger/src/books.rs:1407-1534 | Accepted if and only if both dates are open, the rules post the version, and the journal takes every reversal and the new entry or has that entry already. Then of the document stands exactly one entry, with the date, memo, type, flag and lines of what the version posts, or none; nothing is added exactly when that stood already, and else what `Postings.RestatedBy` says. |
| Corrections.Ledger.UpdateDocument | apps/ledger/src/books.rs:1543-1641 | Accepted if and only if the change is allowed, it can be prepared, the checks pass and the revision is accepted; it stores the prepared document, marks its context, leaves standing exactly one entry with the date, memo, type, flag and lines of what it posts, or none, and adds nothing exactly when that stood; a refused one changes nothing. |
| Corrections.Ledger.VoidDocument | apps/ledger/src/books.rs:1650-1687 | Accepted if and only if the document is live, nothing is applied to it by others and the revision is accepted; nothing of it stands afterwards, and exactly the reversals of what stood, with the reason, are added. |
| Corrections.Ledger.ApplyCredit | apps/ledger/src/books.rs:1694-1782 | Accepted if and only if credit and target match, the period is open and what is asked, or else the smaller open amount, is positive and within both; then the credit alone is saved with exactly that much more to its target. |
| Corrections.CreditAcceptedIff | apps/ledger/src/books.rs:1694-1782 | Told from the two newest versions: a credit memo to an invoice or a vendor credit to a bill, both live, one owner or none, the credit in an open period, and the amount positive and left on both. |
| Corrections.Ledger.Create | apps/ledger/src/mcp.rs:628-682 | Posted, saved, then entered: one entry stands with the fields of what is posted, or none; the document is left saved and unposted if and only if the journal refuses its entry. |
| Corrections.Ledger.Run | apps/ledger/src/books.rs:1471-1782 | Over any run every step that is accepted does what its command says and every other nothing; at the end of every document stands exactly what its newest version posts in its last context, field by field, and account by account the append-only journal nets to that. |
| Corrections.JournalIsNewest | apps/ledger/src/books.rs:1407-1422 | A journal whose documents are in sync nets, account by account, to the sum over newest versions. |
| Corrections.EditKeepsTotals | apps/ledger/src/books.rs:1590-1632 | In the store, an edit keeps every document within its total if and only if all have room, and one that passes its checks if and only if those at risk have. |
| Corrections.EditPassesIff | apps/ledger/src/books.rs:1590-1632 | The checks of an edit pass if and only if its own use fits its total and every application names a saved contract, or a live document that is not used up by applications or has room for the amount beside what others record. |
| Corrections.CreditKeepsTotals | apps/ledger/src/books.rs:1694-1782 | In the store, a credit that `apply_credit` lets through keeps every document within its total, on either book, if and only if all were. |
| Terms.DueAfter | apps/ledger/src/books.rs:192-254 | A day-of-month due date is strictly after the document, on the term day or its month's last day, at most two months on. |
| Terms.DueIsFirstOrSecond | apps/ledger/src/books.rs:192-211 | It is the first term day more than the grace days away, or the one after the first. |
| Terms.DueMonotone | apps/ledger/src/books.rs:192-254 | A later document is never due earlier, across leap years and short months. |
| Terms.NetDue | apps/ledger/src/books.rs:192-211 | Net terms are due their days after the document, never before it. |
| Terms.Gregorian | apps/ledger/src/books.rs:240-254 | The first of every month of every year is the day the Gregorian calendar says, from the days before a year in closed form and the days of a common year before each month. |
| Numbers.Sequences.NextNumber | apps/ledger/src/books.rs:691-722 | The first number from the floor on that no newest version holds, strictly past every number handed out; the skipping loop ends. |
| Numbers.Sequences.Run | apps/ledger/src/books.rs:691-762 | Over any run numbers of a type strictly rise, each is held by no newest version saved when it is issued, and the floor never falls. |
| Numbers.SeedGrows | apps/ledger/src/books.rs:700-712 | Saving a document puts the start of a fresh sequence past its number, and lowers it if and only if it is the first to be numbered, below 1000. |
| Numbers.SeedFalls | apps/ledger/src/books.rs:700-712 | A first invoice numbered 5 takes the start from 1001 to 6. |
| Numbers.HeldBelow | apps/ledger/src/books.rs:700-712 | Every held number is below the seed, which is why the skipping loop ends. |
| Authnet.GroupsPartition | apps/ledger/src/authnet.rs:115-159 | Together the batches hold exactly the settled rows, each once, with its id, invoice, customer and amount: settled sales as sales, settled refunds as refunds. |
| Authnet.DocSplits | apps/ledger/src/authnet.rs:269-395 | Every sale splits into applied plus unapplied; a refund carries its amount. |
| Authnet.InvoicePaid | apps/ledger/src/authnet.rs:420-443 | Across all batches an invoice is applied exactly the lesser of its open amount and the sales naming it, even through several numbers. |
| Authnet.BatchClears | apps/ledger/src/authnet.rs:214-245 | A batch's documents clear 1160 if and only if its stated net is its sales less its refunds. |
| Authnet.GroupedClears | apps/ledger/src/authnet.rs:115-159 | Every batch that grouping makes does: its settlement takes out the settled sales less the settled refunds of its rows, and its other documents bring just that in. |
| AuthnetRows.BatchTells | apps/ledger/src/authnet.rs:115-159 | A batch: gross the sum of its settled-sale rows, refunds that of its settled-refund rows, net the difference, dated by its first settled row, its transactions its rows in order. |
| AuthnetRows.BatchesAre | apps/ledger/src/authnet.rs:115-159 | There is one batch for every id with a settled row, in the order of the first ones. |
| AuthnetRows.BatchBuilds | apps/ledger/src/authnet.rs:214-443 | A batch becomes a settlement of its net and, row by row, a payment of the amount for a settled sale, applied to nothing but the invoice it names, and a refund receipt of the amount for a settled refund. |
| AuthnetRows.InvoicePaidByRows | apps/ledger/src/authnet.rs:269-443 | An invoice is paid the lesser of what was open on it and what the file's settled-sale rows that name it bring, whatever their batches. |
| Authnet.ImportLedger.Import | apps/ledger/src/authnet.rs:489-600 | What is saved stays; every document built for a transaction not saved yet, and every settlement, is saved as built unless its id is taken or it is refused; a file already imported changes nothing. |
| Authnet.AllSavedIff | apps/ledger/src/authnet.rs:556-600 | All that was built is saved as built if and only if none of it was saved before, refused or there twice. |
| Authnet.ImportClears | apps/ledger/src/authnet.rs:489-600 | What an import saves moves 1160 by exactly the opposite of what it passes over and of the transactions saved before. |
| Authnet.FreshImport | apps/ledger/src/authnet.rs:489-600 | A file none of which is saved, refused or there twice leaves 1160 alone and pays an invoice what its sales come to, as far as it was open, in the saved documents. |
| Authnet.ListedTwice | apps/ledger/src/authnet.rs:489-600 | A transaction listed twice leaves its amount in 1160. |
| Payroll.DocumentBalances | apps/ledger/src/payroll.rs:512-700 | Gross plus employer costs equals liabilities plus net pay, both sides of the document, and net pay is not negative. |
| Payroll.ClassBalances | apps/ledger/src/payroll.rs:512-700 | Each class's debits are its own earning and employer lines. |
| Payroll.PayEquation | apps/ledger/src/payroll.rs:512-700 | Over any prefix of mapped lines, gross plus employer costs equals what is owed plus net pay. |
| Payroll.OrderIrrelevant | apps/ledger/src/payroll.rs:512-700 | The document or the refusal is unchanged under any reordering of the run's lines. |
| PayDocument.OutcomeTells | apps/ledger/src/payroll.rs:476-700 | From the lines: the first refusal that applies, with exactly what is not mapped or the first employee whose stated net pay is not earnings less withholdings, or else the document and its totals. |
| PayDocument.DocumentTells | apps/ledger/src/payroll.rs:476-700 | The document: for every account and class the earnings and employer costs that the employee's mapping, else the department's, sends there, with their items, in order; for every item what is withheld and what the employer adds, in order; the net pay out of the bank. |
| SalesOrders.CapKept | apps/ledger/src/sales_orders.rs:199-308 | Over any run of conversions, voids that give back no less than nothing and other saves, what is taken from an order stays within its pre-tax subtotal. |
| SalesOrders.VoidKeepsCap | apps/ledger/src/sales_orders.rs:14-17 | A void keeps that cap if and only if the open amount covers what the void takes back. |
| SalesOrders.VoidedDiscountOvertakes | apps/ledger/src/sales_orders.rs:199-308 | A run in which a void leaves more taken than ordered. |
| SalesOrders.WholeConverts | apps/ledger/src/sales_orders.rs:205-240 | Converting a whole order is accepted if and only if it is a live order, nothing was taken yet and it is worth something. |
| SalesOrders.WholeConversionCloses | apps/ledger/src/sales_orders.rs:16-17 | It leaves nothing open: the order can be neither converted again nor listed as open. |
| SalesOrders.ListedIffOpen | apps/ledger/src/sales_orders.rs:129-177 | The open listing shows precisely the orders that can still be converted. |
| SalesOrders.PartAccepted | apps/ledger/src/sales_orders.rs:228-308 | A part of a line is accepted if and only if the order is open, the quantity is above zero and at most the line's, and what it bills fits; and that is what it takes. |
| SalesOrders.PartsBillTheLine | apps/ledger/src/sales_orders.rs:249-270 | However many part conversions take a line, they bill within half a cent each of its exact share. |
| SalesOrders.PartsLeaveACent | apps/ledger/src/sales_orders.rs:264-267 | Three thirds of a dollar bill 99 cents and a cent stays open. |
| Conversions.ConversionTells | apps/ledger/src/sales_orders.rs:205-308 | Any request: every line of an untouched order, or the lines named, in that order and renumbered, each whole or with its quantity and its share to the cent; an invoice that takes what they are worth, unless that is more than is open; otherwise the first line missing or not billable so is named. |
| Conversions.ListingTells | apps/ledger/src/sales_orders.rs:129-177 | A listed row is a live order dated by then, with its worth, what was taken, what is left and exactly the invoices that took it. |
| BankSafety.RunKeeps | apps/ledger/src/bank.rs:167-680 | Over every run no journal line is cleared for two bank lines, no bank transaction is imported twice, lines only move on, closed statements add up over all their lines and never change. |
| BankSafety.MatchedForGood | apps/ledger/src/bank.rs:220-247 | Once a match of a statement is not refused, matching it again after any run, by any rules, changes nothing. |
| BankSafety.SecondMatch | apps/ledger/src/bank.rs:220-247 | A match of a matched statement changes nothing and reports nothing. |
| BankSafety.NearestIsNearest | apps/ledger/src/bank.rs:274-285 | An exact match is found if and only if a line fits, and none that fits is tried before it. |
| BankRules.RuleTaken | apps/ledger/src/bank.rs:249-453 | Which rule, from the entries: exact if and only if some uncleared line moved the account so; else, for money in, a settlement if and only if one took just that out of 1160; else one less its fee if and only if fees are allowed and one is short by no more than the ratio; else a proposal; and which of those that qualify. |
| BankRules.GrossIsOutflow | apps/ledger/src/store.rs:2249-2299 | What an entry credits to 1160 is what it takes out of it, if and only if it puts nothing in. |
| BankRules.TurnLeaves | apps/ledger/src/bank.rs:249-453 | What a line's turn leaves: its match state, the journal line cleared, the fee's entry, and one more in the count of its rule. |
| BankRules.MatchCounts | apps/ledger/src/bank.rs:225-247 | A match that is not refused reports exactly how many lines came to each state, adds one entry for each fee, and touches only unmatched lines of its statement. |
| BankSafety.ExactClears | apps/ledger/src/bank.rs:249-299 | An exact match clears the bank line's own amount if and only if that amount is not zero. |
| BankSafety.SettlementClears | apps/ledger/src/bank.rs:331-370 | A settlement match clears the amount itself if and only if the entry moved all of it to the bank. |
| BankSafety.FeeMatchClears | apps/ledger/src/bank.rs:372-453 | After a fee match the leg less the fee is the bank line if and only if the leg is the entry's 1160 credits; the fee is positive and within the ratio. |
| BankSafety.FeePosted | apps/ledger/src/bank.rs:421-449 | The fee moves the bank account down by itself, or, refused, not at all while the line stays matched. |
| BankSafety.ConfirmedNet | apps/ledger/src/bank.rs:532-632 | A confirmed entry agrees with the bank if and only if no money went out, and can be posted only if the amount is not zero. |
| BankSafety.SecondImport | apps/ledger/src/store.rs:2035-2082 | Importing lines that all carry ids already seen on the account adds nothing. |
| BankRules.ImportAddsFresh | apps/ledger/src/store.rs:2035-2082 | An import adds exactly the lines whose id is neither on the account nor earlier in the file, as they were read and in that order. |
| BankLedger.Ledger.MatchStatement | apps/ledger/src/bank.rs:225-247 | Matches every line by the rules in order, by date and then as imported, or stops at the first refusal; when it succeeds it leaves none unmatched, touches no other line, and its report counts what became of them. |
| BankLedger.Ledger.ConfirmProposal | apps/ledger/src/bank.rs:532-632 | Succeeds if and only if the line is an open proposal whose entry the journal takes; then exactly that entry is posted, dated the line, from the account into the bank, its first line cleared and the bank line matched to it; a refusal changes nothing. |
| BankLedger.Ledger.CloseStatement | apps/ledger/src/bank.rs:634-680 | Closes if and only if the resolved lines carry opening to closing and the rest come to nothing, and otherwise reports the exact difference. |
| BankLedger.Ledger.Run | apps/ledger/src/bank.rs:167-680 | Any run of the steps, in place, keeps all of that. |
| Csv.ExactRoundTrip | apps/ledger/src/item_classes.rs:449-485 | Reading what was printed gives back every record on its true line if and only if no record is empty and no carriage return stands unquoted. |
| Csv.RoundTrip | apps/ledger/src/accountant.rs:262-268 | For every table and either line end, what comes back: empty records as one empty field, unquoted carriage returns gone, all else unchanged, each with its line. |
| Csv.TaggedAt | apps/ledger/src/item_classes.rs:447-485 | A record's tag is one more than the newlines printed before it, so quoted line breaks are counted. |
| Csv.LastEndOptional | apps/ledger/src/item_classes.rs:480-484 | A last record without its line end is read as with it, except a single empty field, which is lost. |
| Csv.ReadSection | apps/ledger/src/item_classes.rs:460-478 | Wherever in a field quotes open, what is between them is taken as it is, doubled quotes as single ones, and its line breaks are counted. |
| Csv.FieldPrinted | apps/ledger/src/accountant.rs:262-268 | A field without comma, quote and line break is printed as it is, any other between quotes with its own written twice. |
| Csv.FieldsPrinted | apps/ledger/src/item_classes.rs:303-324 | Fields are printed with commas between them. |
| Csv.Render | apps/ledger/src/item_classes.rs:303-324 | A rendered worksheet is its header and rows printed, and reads back as them. |

## Left out

- Scrubbing addresses, e-mails, phone numbers, document numbers and memo text, the leak detector and the fixture
  files themselves: text, not money.
- The last conversion of an amount to an integer or a float (`to_json_number`), and the 28-digit decimal context.
- Scrubber.AmountScrubber.Run: a rollup whose parents go deeper than 64 or run in circles is only shown to come out
  in whole cents, because the source stops adding children up there. That figures are written once is shown for
  parents that do not run in circles, and the opposite for an entity that is its own parent; which longer circles
  write a figure twice is not worked out.
- ScrubTheorem.Preserved: a total that is present but not a number reads as absent, and values of a list that are
  not objects are not modelled.
- The posting rules other than a bank line's, the sales tax of `prepare_document`, and item and class mapping: the
  model takes them as functions.
- Creating a document under an id that already exists, and an import whose document is saved while its entry is
  refused.
- Corrections.Ledger.Run: the order of live entries is the order they were entered in, not their date and id.
- OpenItems.AgingTies: the rows of the aging report are a map by contact; their sorting by name is left out.
- Authnet.ImportLedger.Import: parsing the settlement file and the memo texts of its documents.
- Reading a payroll file into runs and `import_runs`: a fold over lines that the document's own theorems do not need.
- `parse_reviewed` and applying a reviewed worksheet: trimming and case folding of Unicode text.
- Csv.Render: the digits of two columns are printed through the same quoting as the others, which leaves digits alone.
- Editing a sales order after it was partly converted. The refusal of a void while payments are applied is not part of
  a run of conversions; it only makes runs shorter.
- BankLedger.Ledger.ConfirmProposal: the document saved before its entry is refused, and the version number of one
  confirmed again, are not part of the state; `suggest_account` and its reasons are left out.
- SQL, transactions, the clock, random ids, file modes, hashing and the handoff export (`apps/ledger/src/handoff.rs`).
