# Bill splitting, modelled in Dafny

This project models the core of a bill splitter (`src/core.ts`). A bill is a list of
line items. Each item is either shared equally by everybody on the bill or owed in
full by one named person, and the bill carries a tip percentage. The splitter
computes the following:

- the subtotal;
- the tip, rounded to the nearest tenth of a currency unit;
- the total (subtotal plus tip);
- each person's amount: an equal part of every shared item, their own items in
  full and a proportional tip, rounded to a tenth.

It then reconciles the per-person list with the total in place. The leftmost
largest entry is corrected by a fixed +0.1 when the list falls short of the total,
or by the exact drift when it overshoots.

Money is an exact `real`. `Math.round(x * 10) / 10` is `RoundTenth(x) = Floor(10x + 1/2) / 10`,
which keeps `Math.round`'s rounding of halves toward positive infinity.

Modules and files:

- `rounding.dfy` (`Rounding`): rounding to a tenth, and the predicate `OnGrid` ("a whole number of tenths").
- `bill.dfy` (`Bill`): the records `BillItem`, `PersonItem`, `BillInput` and `BillOutput`, plus `Result` and `Outcome`.
- `allocator.dfy` (`Allocator`): subtotal, tip, the persons of the bill and the per-person amounts.
- `reconciler.dfy` (`Reconciler`): `adjustAmount`, as a method over an `array<PersonItem>` that changes one entry.
- `pipeline.dfy` (`Pipeline`): `splitBill`, and the theorems about the whole pipeline.

Every `reduce` and `forEach` of the source folds from left to right. The
specification functions peel off the last element, so the loops of the methods meet
them on each prefix. Each loop of the source, except the `reduce` of
`calculateSubTotal`, which stays the function `SubTotal`, is a method proved against such a
function: `ScanPersons`, `CalculatePersonAmount`, `CalculateItems` (the `map`), and
`SumAmounts` and `FindMax` (the two `reduce` calls of `AdjustAmount`). `SplitBill` is a method because it calls `AdjustAmount`.

Three behaviours of the code deserve a note. The model follows the code in each.

- **Zero persons.** One would expect a clear error when nobody can be charged, but the code has no such check. With no personal items, `calculateItems` returns an empty list. `adjustAmount` then calls `reduce` without a seed on that empty list, which throws only when the total is nonzero. With a zero total the output has an empty list. `Split`'s contract states exactly this.
- **Rounding rule.** `Math.round` rounds ties toward positive infinity, so 0.25 becomes 0.3 and -0.25 becomes -0.2. `RoundTenth` does the same.
- **Conservation.** A natural requirement is that the per-person amounts add up to the total. The code guarantees this only when the upward drift is at most one tenth. `DriftBound` and `SplitConservesUpToThreePersons` show that this holds for up to three persons when prices are whole tenths. `ShortfallOfTwoTenths` shows a four-person bill that ends one tenth short. The tenths condition matters too: with prices that are not whole tenths the total is off the grid, so even a tiny upward drift is overcorrected. Three persons owning 10.0, 10.0 and 10.01 at a 0% tip have a total of 30.01, but their amounts are reconciled to 30.1. A downward drift off the grid is lost the other way: with 10.0, 10.0 and 9.96 at a 0% tip the total is 29.96, the target is lowered to 9.96 and rounded back to 10.0, and the amounts stay at 30.0.

## Model

| member | source | states |
|---|---|---|
| `Rounding.RoundTenth` | src/core.ts:88 | `Math.round(x*10)/10` is a whole number of tenths in the window (x - 0.05, x + 0.05] |
| `Rounding.RoundTenthUnique` | src/core.ts:88 | the window property determines the rounding: the only tenth in (x - 0.05, x + 0.05] is RoundTenth(x) |
| `Rounding.RoundTenthOnGrid` | src/core.ts:182 | rounding a value that is already a whole number of tenths leaves it unchanged |
| `Rounding.RoundTenthIdempotent` | src/core.ts:182 | rounding twice is rounding once |
| `Allocator.SubTotal` | src/core.ts:76-79 | the definition: the left-to-right sum of every price, shared or personal, 0 for an empty list; the lemmas below state its properties |
| `Allocator.SubTotalBounds` | src/core.ts:76-79 | with no negative price the subtotal is at least every single price, and so never negative |
| `Allocator.SubTotalAppend` | src/core.ts:76-79 | the subtotal of a concatenation is the sum of the subtotals, so every item's price is added exactly once |
| `Allocator.SubTotalSplit` | src/core.ts:76-79 | the subtotal counts shared and personal items alike: it is the shared total plus the personal total |
| `Allocator.SubTotalOnGrid` | src/core.ts:76-79 | prices that are whole numbers of tenths give a subtotal that is one too |
| `Allocator.CalculateTip` | src/core.ts:83-89 | the tip is a whole number of tenths within 0.05 of subtotal × percentage / 100, and is 0 for a 0% tip |
| `Allocator.Persons` | src/core.ts:94-105 | the persons have no duplicates, and p is listed exactly when some personal item names p, so shared items add nobody |
| `Allocator.PersonsFirstOccurrence` | src/core.ts:94-105 | persons are listed in the order of their first personal item |
| `Allocator.ScanPersons` | src/core.ts:94-105 | the loop over the items that fills an insertion-ordered set returns exactly `Persons(items)` |
| `Allocator.Accumulated` | src/core.ts:130-141 | the definition: a person's amount before the tip adds price / persons for a shared item, the full price for their own item and nothing otherwise; the lemmas below state its properties |
| `Allocator.AccumulatedBounds` | src/core.ts:130-141 | with no negative price a person's amount before the tip is never negative and never more than the subtotal |
| `Allocator.PersonAmount` | src/core.ts:143-150 | a person's amount is a whole number of tenths within 0.05 of their accumulated amount plus its proportional tip |
| `Allocator.AccumulatedSplit` | src/core.ts:133-141 | before the tip, a person pays price / persons for every shared item, their own items in full and nothing of anyone else's |
| `Allocator.CalculatePersonAmount` | src/core.ts:124-151 | the accumulating loop, the tip and the rounding compute `PersonAmount` |
| `Allocator.Items` | src/core.ts:107-122 | one entry per person, in the order of `Persons` and with the name copied through, each amount that person's `PersonAmount` and so a whole number of tenths; no persons gives an empty list |
| `Allocator.Allot` | src/core.ts:113-121 | one entry per name, in order, with the name copied; each amount is a whole number of tenths within 0.05 of that name's unrounded tipped amount |
| `Allocator.CalculateItems` | src/core.ts:107-122 | the loop over the scanned names computes `Items`, and it calls `CalculatePersonAmount` only when there is at least one person |
| `Allocator.OwnSumPersons` | src/core.ts:94-105 | over the persons of the bill, the personal totals add up to the price of all personal items: each personal item has exactly one listed owner |
| `Allocator.AccumulatedSumCovers` | src/core.ts:133-141 | when the own totals of the names cover every personal item, their amounts before the tip add up to the subtotal: shared items are split without loss |
| `Allocator.AllocationConserves` | src/core.ts:124-151 | before rounding, the per-person tipped amounts add up exactly to subtotal + subtotal × percentage / 100 |
| `Reconciler.AmountSum` | src/core.ts:157 | the sum of the amounts: 0 for an empty list and the lone amount for a one-entry list |
| `Reconciler.AmountSumUpdate` | src/core.ts:157 | replacing one entry changes the sum by exactly the change of that entry's amount |
| `Reconciler.AmountSumOnGrid` | src/core.ts:157 | amounts that are whole numbers of tenths sum to a whole number of tenths |
| `Reconciler.Corrected` | src/core.ts:173-182 | the target's new amount is a whole number of tenths; on a shortfall it lies in (amount + 0.05, amount + 0.15] and is exactly amount + 0.1 when the amount is a whole number of tenths; otherwise it is within 0.05 of amount + drift |
| `Reconciler.MaxIndex` | src/core.ts:166-171 | the seedless `reduce` picks an entry of largest amount, and every earlier entry is strictly smaller (ties keep the leftmost) |
| `Reconciler.Adjusted` | src/core.ts:155-183 | it throws exactly on an empty list with a nonzero total; no drift leaves the list unchanged; otherwise only the leftmost largest entry changes, its amount becomes `Corrected(amount, drift)`, and length and names are kept |
| `Reconciler.AdjustedOnGrid` | src/core.ts:173-182 | reconciling a list of whole tenths gives a list of whole tenths, because the corrected amount is rounded to a tenth again |
| `Reconciler.AdjustedShortfall` | src/core.ts:173-175 | on a shortfall with the target on the grid, the target and the sum rise by exactly 0.1, so the sum meets the total exactly when the drift was 0.1 |
| `Reconciler.AdjustedOvershoot` | src/core.ts:176-182 | on an overshoot with total, sum and target on the grid, the target absorbs the whole drift and the sum equals the total |
| `Reconciler.AdjustedConserves` | src/core.ts:155-183 | on the grid, with an upward drift of at most one tenth, the reconciled list sums exactly to the total |
| `Reconciler.SumAmounts` | src/core.ts:157 | the summing loop returns the sum of all amounts, `AmountSum` |
| `Reconciler.FindMax` | src/core.ts:166-171 | on a nonempty array the loop returns `MaxIndex`: the leftmost entry of largest amount |
| `Reconciler.AdjustAmount` | src/core.ts:155-183 | the in-place method (sum, search, one element update) leaves the array equal to `Adjusted`, and unchanged when it throws |
| `Pipeline.Split` | src/core.ts:41-57 | it fails exactly when there is no person and the total is nonzero; otherwise the record holds the formatted date, the location, subtotal = `SubTotal`, tip = `CalculateTip` of that subtotal, total = subtotal + tip and the list `Adjusted` from `Items`, which names every person once, in order; the tip and every output amount are whole numbers of tenths |
| `Pipeline.SplitBill` | src/core.ts:41-57 | the method that fills an array, reconciles it in place and assembles the record computes `Split` |
| `Pipeline.AllotSum` | src/core.ts:113-121 | per-person rounding moves the sum of n amounts by less than n × 0.05 down and at most n × 0.05 up |
| `Pipeline.DriftBound` | src/core.ts:44-48 | the drift passed to the reconciler is strictly within ±(persons + 1) × 0.05 |
| `Pipeline.SplitConservesUpToThreePersons` | src/core.ts:41-57 | with prices that are whole tenths and one to three persons, the output amounts add up exactly to the total |
| `Pipeline.ShortfallOfTwoTenths` | src/core.ts:173-175 | four persons paying 1.0 each with a 4% tip get total 4.2, but the reconciled amounts add up to 4.1 |

## Left out

- `formatDate` (src/core.ts:62-73) depends on the host's `Date` object, time zone and locale. `SplitBill` and `Split` take the formatter as a function parameter and pass the input date through it.
- IEEE-754 doubles are not modelled. Money is exact `real`, so the model has no representation error in 0.1 and no residue in `+=`. The `adjustment === 0` test is exact equality on reals.
- In the source, `adjustAmount` mutates the `PersonItem` object that `reduce` returns. The model replaces that array element with an updated value. The objects are freshly built by `calculateItems` and shared with nobody, so this loses no aliasing the source relies on.
- The thrown `TypeError` is modelled as `Outcome.Fail` / `Result.Failure`, carrying the message of `reduce` on an empty array. No other exception is modelled.
- `Allocator.PersonAmount` and `Allocator.CalculatePersonAmount` require `persons > 0`. The source divides by `persons` and is only ever called with at least one name. The division by zero that a direct caller could cause is not modelled.
- The TypeScript `isShared` flag is modelled by the two constructors of `BillItem`. Other structural-typing details of `BillInput` and `BillOutput` are not modelled.
- SplitConservesUpToThreePersons: the exact sum is proved only for one to three persons with prices that are whole tenths, because the code does not guarantee it beyond that (`ShortfallOfTwoTenths`).
