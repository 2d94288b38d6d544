# Statement ledger core

This is a Dafny model of the ledger core of the supplier-statement fixture generator
(`statement_pdf_generator.py`). The core has four parts:

- **The type table.** It gives each transaction type a reference prefix and a fixed
  debit flag. Adjustments have no fixed flag.
- **Transaction synthesis (`generate_transactions`).**
  - Draw the transactions in generation order. Each amount is sized off a provisional
    running balance.
  - Sort the list by date in place.
  - Refold every running balance from the opening balance: a debit adds its amount,
    anything else subtracts it.
  - Return the list and the closing balance.
- **Aging (`calculate_aging`).** Every debit amount goes into one of five buckets by its
  age in days against today. Everything else is skipped.
- **Statement assembly and the ground-truth projection** (`_generate_statement_data`,
  `_create_ground_truth`). The projection holds these derived labels:
  - the order-preserving filter of credit items (`is_credit and not is_debit`);
  - the debit and credit totals;
  - the per-type counts.

Representation:

- Money is exact integer cents. Dates are integer day numbers.
- "Now" is a parameter `today`. The same day serves generation and aging.
- The random draws are an input sequence of `Draw` records. `ValidDraws` states the ranges
  the random generator keeps to. The amount ranges are rounded half up to the cent and sized
  off the provisional balance before the draw.
- The methods accept any draws. Only the lemmas that need the ranges require `ValidDraws`.

Modules:

- `Transactions` (transactions.dfy): the type table, the transaction record, and signed and
  debit sums.
- `Synthesis` (synthesis.dfy):
  - specification functions `Generated`, `SortByDate` (a stable insertion sort from the back),
    `Rebalance`, `LedgerOf` and `ClosingOf`, with their lemmas;
  - the imperative procedure: the generation loop, an in-place stable insertion sort on an
    array, and the refold loop over the array.
- `Aging` (aging.dfy): the bucket cascade, `AgingOf`, and `CalculateAging` with its five
  counters.
- `Statements` (statements.dfy): `StatementOf` and `GenerateStatementData`.
- `Projection` (projection.dfy): `GroundTruthOf` and `CreateGroundTruth` with its
  credit-items loop, and the reconciliation lemmas.

Three details of the code that the model keeps as written:

- **Credit-note upper bound.** When the balance is positive, the upper bound is
  `max(50, min(0.3 * balance, 5000))` (statement_pdf_generator.py:140-141).
- **The final `else` branch.** Any type other than invoice, credit note or payment is sized
  and added like a debit note (statement_pdf_generator.py:149-151).
- **Refold.** The refold subtracts the amount of every transaction not flagged debit
  (statement_pdf_generator.py:173-176).

## Model

| member | source | states |
|---|---|---|
| Transactions.Prefix | statement_pdf_generator.py:71-77 | the `prefix` column of the type table: INV, CN, PY, DN, ADJ, the head of each reference |
| Transactions.DebitFlag | statement_pdf_generator.py:71-77 | the `is_debit` column of the type table: true for invoice and debit note, false for credit note and payment, none for adjustment |
| Transactions.IsDebitFor | statement_pdf_generator.py:71-77 | `is_debit` is the table's flag: true for invoice and debit note, false for credit note and payment; only an adjustment takes its coin |
| Transactions.IsCreditFor | statement_pdf_generator.py:161-162 | `is_credit` is the negation of `is_debit` for every type except adjustment |
| Transactions.Signed | statement_pdf_generator.py:173-176 | a debit adds its amount to the running balance and anything else subtracts it |
| Transactions.SumSigned | statement_pdf_generator.py:172-176 | the sum of the signed amounts, in list order |
| Transactions.DebitTotal | statement_pdf_generator.py:990 | the sum of the amounts of the transactions with `is_debit` |
| Synthesis.BaseDate | statement_pdf_generator.py:123 | the base date lies 90 days before today |
| Synthesis.AmountBounds | statement_pdf_generator.py:136-151 | each type's amount range, in cents, with both ends rounded half up; the range is non-empty and non-negative |
| Synthesis.ProvisionalStep | statement_pdf_generator.py:136-151 | the provisional balance after one draw: an invoice and the fall-through branch add the amount, a credit note and a payment subtract it |
| Synthesis.MakeTx | statement_pdf_generator.py:153-165 | the new record keeps the drawn type and amount, and its flags are the ones the type table fixes |
| Synthesis.ProvisionalBalance | statement_pdf_generator.py:122-151 | the running balance the generator carries while drawing: the opening balance stepped by `ProvisionalStep` through the draws in order |
| Synthesis.DrawInRange | statement_pdf_generator.py:126-163 | one draw lies in the generator's ranges: day offset 1..90, a non-adjustment type, a five-digit serial, an optional six-digit PO number, and an amount within `AmountBounds` for the balance before it |
| Synthesis.ValidDraws | statement_pdf_generator.py:126-163 | every draw lies in range for the provisional balance of the draws before it |
| Synthesis.Generated | statement_pdf_generator.py:125-165 | the list in generation order, one record per draw, each carrying the provisional balance after it |
| Synthesis.InsertByDate | statement_pdf_generator.py:168 | one step of the stable sort: t goes after every element not later than it |
| Synthesis.SortByDate | statement_pdf_generator.py:168 | the stable sort by date, one insertion per element, same length as its input |
| Synthesis.Rebalance | statement_pdf_generator.py:171-177 | the refold: each `balance_after` replaced by the opening balance plus the signed total up to and including it |
| Synthesis.DrawTransactions | statement_pdf_generator.py:121-165 | the first loop yields exactly `Generated(draws)` and ends on the provisional balance `ProvisionalBalance(draws)` |
| Synthesis.InsertInPlace | statement_pdf_generator.py:168 | moving element i left past the later-dated elements leaves `InsertByDate(a[..i], a[i])` in `a[..i+1]` and the rest of the array unchanged |
| Synthesis.ShiftLater | statement_pdf_generator.py:168 | the inner shift loop moves the later-dated elements of `a[..i]` one place right and returns the gap just after the last element not later than the key |
| Synthesis.SortByDateInPlace | statement_pdf_generator.py:168 | the in-place sort leaves exactly `SortByDate` of the old contents in the array |
| Synthesis.SortByDateSnoc | statement_pdf_generator.py:168 | sorting one more element is inserting it into the sorted prefix |
| Synthesis.InsertByDatePermutes | statement_pdf_generator.py:168 | one insertion adds exactly the inserted transaction to the multiset |
| Synthesis.SortByDatePermutes | statement_pdf_generator.py:153-168 | the sorted list is a permutation of the generated list |
| Synthesis.InsertByDateSorted | statement_pdf_generator.py:168 | inserting into a date-ordered list keeps it date-ordered |
| Synthesis.SortByDateSorted | statement_pdf_generator.py:168 | the sorted list is in non-decreasing date order |
| Synthesis.InsertByDateOnDate | statement_pdf_generator.py:168 | an inserted transaction joins the end of its own date's run; other dates' runs are unchanged |
| Synthesis.SortByDateStable | statement_pdf_generator.py:168 | the sort is stable: the sub-list of any one date is the same before and after |
| Synthesis.InsertByDateSumSigned | statement_pdf_generator.py:168 | an insertion adds the inserted transaction's signed amount to the signed total |
| Synthesis.SortByDateSumSigned | statement_pdf_generator.py:168-177 | sorting leaves the signed total unchanged |
| Synthesis.InsertByDateSplit | statement_pdf_generator.py:168 | insertion places t right after the last element not later than t, ahead of the later-dated tail |
| Synthesis.RecomputeBalances | statement_pdf_generator.py:170-179 | the refold loop leaves `Rebalance` of the old contents in the array and returns the opening balance plus the signed total |
| Synthesis.RebalanceAt | statement_pdf_generator.py:171-177 | entry i of the refolded list is entry i with `balance_after` = opening + signed sum over entries 0..i, and nothing else changed |
| Synthesis.RebalanceSorted | statement_pdf_generator.py:177 | the refold changes no date, so date order is kept |
| Synthesis.RebalanceSumSigned | statement_pdf_generator.py:177 | the refold changes no amount or flag, so the signed total is kept |
| Synthesis.RebalanceFolds | statement_pdf_generator.py:171-177 | every refolded `balance_after` is the opening balance plus the signed sum of its own prefix of the refolded list |
| Synthesis.RebalanceFoldsAt | statement_pdf_generator.py:171-177 | refolded entry k's balance is the opening balance plus the signed sum of the refolded entries 0..k |
| Synthesis.LedgerOf | statement_pdf_generator.py:168-179 | the list the procedure returns: the generated list sorted by date, then refolded from the opening balance |
| Synthesis.ClosingOf | statement_pdf_generator.py:171-179 | the `current_balance` the procedure returns: the opening balance plus the signed total of the sorted list |
| Synthesis.GenerateTransactions | statement_pdf_generator.py:119-179 | the procedure returns exactly `LedgerOf(draws)` and `ClosingOf(draws)`, one transaction per draw |
| Synthesis.LedgerSortedAndBalanced | statement_pdf_generator.py:168-177 | the returned list is date-ordered, and each `balance_after[i]` is the opening balance plus the signed sum over j ≤ i |
| Synthesis.ClosingIsLastBalance | statement_pdf_generator.py:171-179 | the closing balance is the last `balance_after`, or the opening balance when there are no transactions |
| Synthesis.ClosingIsOrderFree | statement_pdf_generator.py:171-179 | the closing balance is the opening balance plus the signed total, taken in generation order or in returned order |
| Synthesis.RebalanceWithoutBalances | statement_pdf_generator.py:171-177 | the refold changes nothing but the running balances |
| Synthesis.SortByDateWithoutBalances | statement_pdf_generator.py:168 | with balances cleared, the sorted list is a permutation of its input |
| Synthesis.LedgerPermutes | statement_pdf_generator.py:153-177 | the returned list is the generated list reordered, with only `balance_after` changed: both lists with balances cleared have the same multiset |
| Synthesis.GeneratedAt | statement_pdf_generator.py:125-165 | generated transaction k is built from draw k and the provisional balance of the draws before it |
| Synthesis.ValidDrawsAt | statement_pdf_generator.py:126-151 | under the generator's ranges, draw k lies within range for the provisional balance before it |
| Synthesis.GeneratedWellShaped | statement_pdf_generator.py:123-164 | every generated transaction, in generation order, has the generated shape |
| Synthesis.ShapedPermutation | statement_pdf_generator.py:168 | a permutation of well-shaped transactions is well shaped |
| Synthesis.RebalanceShaped | statement_pdf_generator.py:171-177 | the refold keeps every transaction's shape |
| Synthesis.LedgerWellShaped | statement_pdf_generator.py:123-164 | every returned transaction has a non-negative amount, a date `base_date + k` with k in 1..90, a due date 30 days later, a non-adjustment type with its fixed flags and prefix, and a five-digit serial |
| Synthesis.LedgerAges | statement_pdf_generator.py:123-126 | every returned transaction is 0 to 89 days old today |
| Synthesis.LedgerFlagsExclusive | statement_pdf_generator.py:127-162 | no returned transaction is an adjustment, so each is exactly one of debit and credit |
| Aging.BucketOf | statement_pdf_generator.py:194-204 | the cascade picks the bucket whose range (≤0, 1-30, 31-60, 61-90, ≥91) holds the age |
| Aging.BucketUnique | statement_pdf_generator.py:195-204 | an age lies in a bucket's range exactly when the cascade picks that bucket |
| Aging.BucketTotal | statement_pdf_generator.py:192-204 | one bucket's debit accumulation: the sum of the debit amounts whose age the cascade sends to that bucket |
| Aging.AgingOf | statement_pdf_generator.py:184-204 | the report: each bucket holds the sum of the debit amounts whose age falls in it |
| Aging.AgingStep | statement_pdf_generator.py:192-204 | a debit adds its amount to its age's bucket only; a non-debit leaves all five buckets unchanged |
| Aging.AgingComplete | statement_pdf_generator.py:184-204 | the five buckets together hold the sum of the debit amounts |
| Aging.NoAgeBeyondNinety | statement_pdf_generator.py:201-204 | when no transaction is older than 90 days, `days_90_plus` is 0 |
| Aging.CalculateAging | statement_pdf_generator.py:181-206 | the five counters end as `AgingOf(txs, today)`, all zero for no transactions, summing to the debit total |
| Statements.GenerateStatementData | statement_pdf_generator.py:909-926 | the statement is `StatementOf` the inputs; `total_due` is the last running balance or the opening balance; the aging holds the debit total |
| Statements.StatementOf | statement_pdf_generator.py:909-926 | the statement assembled from `LedgerOf`, its closing balance as total due, and `AgingOf` the ledger |
| Statements.StatementIsConsistent | statement_pdf_generator.py:915-924 | for in-range draws: one transaction per draw, date-ordered, balances folded from the opening balance, `total_due` = opening + signed total, aging complete, `days_90_plus` = 0 |
| Statements.SingleInvoiceStatement | statement_pdf_generator.py:119-206 | one invoice of 100.00 from a zero opening balance gives one debit line with balance 100.00, total due 100.00, and 100.00 in its age's bucket only |
| Statements.SingleInvoiceLedger | statement_pdf_generator.py:119-179 | one invoice of 100.00 from a zero opening balance yields a one-line ledger with `balance_after` 100.00 and closing balance 100.00 |
| Statements.EmptyStatement | statement_pdf_generator.py:909-926 | with no draws the ledger is empty, the total due is the opening balance and all five buckets are zero |
| Projection.CreateGroundTruth | statement_pdf_generator.py:974-1031 | the record is `GroundTruthOf(statement, style, generatedAt)`; `num_credits` is the number of credit items and `num_transactions` the list length |
| Projection.GroundTruthOf | statement_pdf_generator.py:993-1029 | the ground-truth record: metadata, company and customer summaries, balances and transactions copied through, and the derived labels |
| Projection.ItemOf | statement_pdf_generator.py:981-987 | the credit-item record: reference, date, amount, type and description of the transaction |
| Projection.OrEmpty | statement_pdf_generator.py:1003-1004 | an optional company field read with an empty-string default |
| Projection.CreditItemsOf | statement_pdf_generator.py:978-987 | the credit items: one item per transaction with `is_credit` and not `is_debit`, in list order |
| Projection.CreditTotal | statement_pdf_generator.py:991 | the sum of the amounts of the transactions with `is_credit` and not `is_debit` |
| Projection.CountType | statement_pdf_generator.py:1023-1026 | the number of transactions of one type |
| Projection.TypeCountsOf | statement_pdf_generator.py:1022-1027 | the four per-type counts of invoices, credit notes, payments and debit notes |
| Projection.CreditItemsAppend | statement_pdf_generator.py:978-987 | the credit-item filter of a concatenation is the concatenation of the filters, so it preserves order |
| Projection.CreditItemsMembers | statement_pdf_generator.py:980 | every credit transaction yields an item, and every item comes from a transaction with `is_credit` and not `is_debit` |
| Projection.CreditTotalIsItemSum | statement_pdf_generator.py:978-1019 | `total_credit_amount` is the sum of the credit items' amounts |
| Projection.TotalsReconcile | statement_pdf_generator.py:990-991 | when every transaction carries at least one flag (an adjustment flagged both ways included), the debit total minus the credit total is the signed total |
| Projection.TypeCountsComplete | statement_pdf_generator.py:1022-1027 | with no adjustment, the four type counts sum to the number of transactions |
| Projection.UnflaggedAdjustmentEscapesLabels | statement_pdf_generator.py:978-1027 | an adjustment flagged neither debit nor credit, appended to any list, lowers the signed total by its amount but leaves the debit total, the credit total, the credit items and all four type counts unchanged |
| Projection.LabelsReconcile | statement_pdf_generator.py:990-1027 | for any statement whose ledger has exclusive flags, no adjustment, no age over 90 days, a total due of opening plus signed total and its own aging: the labels are `Reconciled` |
| Projection.GroundTruthReconciles | statement_pdf_generator.py:990-1027 | for in-range draws, `Reconciled` with one transaction per draw: debit total − credit total = total due − opening balance, the aging holds the debit total with nothing over 90 days, the counts sum to `num_transactions` = number of draws, and the credit total is the item sum |

## Left out

- The five `generate_statement_style*` renderers are left out. They are document layout with
  no ledger invariant. This includes the style that restarts its running balance at 0 and
  the style that splits `days_90_plus` in floating point.
- `generate_company` and the remote text-generation client are not modelled. They are a
  network call with a fallback to a static pool. `generate_customer` is a random pick from a
  pool. Company and customer are inputs.
- `generate_batch` is left out: directory creation, file writes, JSON serialisation and
  per-statement error logging are I/O.
- Random draws are inputs, and their distributions and weights are not modelled. This covers:
  - `randint`, `uniform`, `choices`, `choice` and `random()` in `generate_transactions`; `choice`
    draws the description and the two adjustment coins (the `description`, `creditCoin` and
    `debitCoin` fields of a `Draw`);
  - the random opening balance;
  - the statement number.
- The amounts in a `Draw` are already quantized to cents. The floating-point error in the
  sized bounds (`0.3 * balance`, `0.1 * balance`), the random opening balance in floats, and
  the `float` round trips are not modelled. Money is exact cents throughout, and the refold
  loop's `Decimal(str(float))` conversion is taken as exact.
- Clock: both `datetime.now()` calls are the single parameter `today`. The model assumes
  less than 24 hours pass between the two calls. `timedelta.days` is then 90 − k exactly.
- Float sums: `calculate_aging` accumulates `aging[...] += trans["amount"]` in floats
  (statement_pdf_generator.py:196-204), and the debit and credit totals are float `sum(...)`
  calls (statement_pdf_generator.py:990-991). In the program the debit − credit identity
  therefore holds only up to float rounding. `Projection.Reconciled` proves it exactly on
  cents.
- `strftime` dates are left out. The `date` string and `date_obj` collapse to one day number,
  and `statement_date` is an opaque string. The `generated_at` timestamp is a parameter, so
  the projection is deterministic given it. Two real calls differ in that field only.
- The PO number is a drawn optional six-digit serial. Reference and description strings
  are opaque.
- Python's `list.sort` (timsort) is modelled by a stable insertion sort. With sortedness by
  date, the permutation property and stability it yields the same list. This uniqueness
  argument is not itself stated as a lemma.
- Synthesis.GenerateTransactions: its contract ties the result to `LedgerOf`/`ClosingOf`.
  Sortedness, the permutation property, the prefix-sum balances and the closing-balance facts
  are stated on those functions by the lemmas beside it rather than in its own `ensures`.
