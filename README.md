# Expense tracker: a Dafny model

This project models the in-memory expense ledger of `expenses_tracker.py`, a
single-user command-line tool. The tool keeps a list of expense records.
Each record holds an amount, a category and a description. A text menu lets
the user add an expense, list all expenses, see the total spent, see the total
spent per category, or exit.

The Dafny modules follow the program's parts:

- `Expenses` (`expenses.dfy`): the record type and the aggregates as pure
  functions. These are the grand total `SumAmounts`, the exact-match group
  `OfCategory`, the first-seen ordered category list `CategoryKeys`, and the
  per-category dictionary `CategoryTotals`. The lemmas prove what the views
  promise: category totals sum to the grand total, categories come out in
  first-seen order, and the total does not depend on record order.
- `AmountInput` (`amount_input.dfy`): the amount retry loop of `add_expense`.
  The typed lines are a stream of already-converted tokens. The function
  `ScanAmount` specifies the loop, `ScanAmountMeaning` states what it yields,
  and `ReadAmount` is the loop itself.
- `Tracker` (`tracker.dfy`): the global `expenses` list becomes the `records`
  field of a `Ledger` object. `Valid()` is the store invariant: every amount
  is greater than 0. `Add` is the append, and `AddExpense` is the whole
  add operation. `ViewAll`, `ViewTotal` and `ViewTotalByCategory` are the
  three views, each with the loop the source has.
- `Menu` (`menu.dfy`): the dispatch of `main`. `Step` is one menu pass as a
  function and `Session` is a run of passes. `Dispatch` and `RunMenu` are
  the same two as methods on a `Ledger`.
- `Scenarios` (`scenarios.dfy`): three worked sessions whose outcomes are
  proved from the model's definitions.

Amounts are `real`, so sums are exact. What a view prints is a `Report`
value: which message is shown and the numbers in it. The formatted text is
not modelled.

The append at `expenses_tracker.py:59` does no check of its own. Only the
retry loop before it (lines 38-47) keeps amounts positive. So `Ledger.Add`
requires `amount > 0`, and `AddExpense` is the only caller, passing the
amount the loop accepted.

## Model

| member | source | states |
|---|---|---|
| `Expenses.SumAmountsAppend` | expenses_tracker.py:88-90 | the total of two record lists joined is the sum of their totals |
| `Expenses.SumAmountsPermutation` | expenses_tracker.py:88-90 | two stores holding the same records in any order have the same total |
| `Expenses.SumAmountsPositive` | expenses_tracker.py:84-90 | on a store whose amounts are all above zero, the total is 0 when empty and above 0 otherwise |
| `Expenses.OfCategoryIsExactGroup` | expenses_tracker.py:106-112 | the group of category `c` holds each record whose category equals `c` exactly, as often as it occurs in the store, and no other record |
| `Expenses.CategoryKeysAreCategories` | expenses_tracker.py:104-111 | a string is a key of the category dictionary exactly when some record has that category |
| `Expenses.CategoryKeysAreDistinct` | expenses_tracker.py:104-111 | no category is listed twice among the keys |
| `Expenses.FirstIndex` | expenses_tracker.py:110-111 | the position found holds a record of the category, and no earlier record has it |
| `Expenses.CategoryTotalsAreCategorySums` | expenses_tracker.py:104-112 | the dictionary has a key exactly for each category of the store, and each category's total is the sum of the amounts of the records of that category |
| `Expenses.GroupingStep` | expenses_tracker.py:106-112 | one pass over record `i` adds its category to the keys when it is new, starts it at 0 and adds the amount to it, leaving the other totals alone |
| `Expenses.CategoryTotalsSumToTotal` | expenses_tracker.py:104-112 | summed over all keys, the category totals equal the grand total |
| `Expenses.CategoryKeysFirstSeenOrder` | expenses_tracker.py:110-115 | for any two keys, the first record of the earlier key comes before the first record of the later one |
| `AmountInput.ScanAmountMeaning` | expenses_tracker.py:38-47 | reading stops at the first number above zero and yields it; every earlier line is refused with its reason (not a number, or not above zero); a stream with no such number is read to its end and yields none |
| `AmountInput.ReadAmount` | expenses_tracker.py:38-47 | the retry loop returns the amount, refusals and lines read that `ScanAmount` gives |
| `AmountInput.ScanAmountFindsFirstPositive` | expenses_tracker.py:38-47 | if some line holds a number above zero, an amount is found, at or before that line |
| `Tracker.Ledger.constructor` | expenses_tracker.py:17 | the store starts empty and valid |
| `Tracker.Ledger.Add` | expenses_tracker.py:53-59 | appends exactly one record with the given amount, category and description; earlier records stay unchanged and in order; all amounts stay above zero |
| `Tracker.Ledger.AddExpense` | expenses_tracker.py:38-61 | with an accepted amount, one record is appended holding it and the category and description; with none, the store is unchanged; the refusals are reported; the invariant is kept |
| `Tracker.Ledger.ViewAll` | expenses_tracker.py:68-77 | an empty store reports that nothing is recorded; otherwise every record appears once, in insertion order, numbered from 1 |
| `Tracker.Ledger.ViewTotal` | expenses_tracker.py:84-92 | an empty store reports nothing to calculate; otherwise the report holds the sum of all amounts |
| `Tracker.Ledger.ViewTotalByCategory` | expenses_tracker.py:100-116 | an empty store reports nothing to summarize; otherwise the report holds the first-seen ordered categories and their totals |
| `Menu.Step` | expenses_tracker.py:127-139 | only "5" exits; only "1" can change the store, and then only by appending one record; an add without an amount ends the input; every other choice keeps the loop running; the invariant is kept |
| `Menu.Session` | expenses_tracker.py:123-139 | a session always ends, after at most one pass per turn, with one screen per pass |
| `Menu.SessionOnlyAppends` | expenses_tracker.py:123-139 | over a session the store only grows by appending, keeps all amounts above zero, and gains one record per successful add |
| `Menu.SessionStopsAtFirstEnd` | expenses_tracker.py:135-137 | a session stops at the first pass that ends the loop, and it exits exactly when that pass was "5" |
| `Menu.Dispatch` | expenses_tracker.py:127-139 | one pass on a `Ledger` gives the screen, status and new store that `Step` gives |
| `Menu.RunMenu` | expenses_tracker.py:123-139 | the menu loop on a `Ledger` gives the screens, status, pass count and final store that `Session` gives |
| `Scenarios.ScenarioLunchCoffeeBus` | expenses_tracker.py:88-112 | 12.50 Food, 7.25 Food, 40.00 Transport: total 59.75, keys Food then Transport, totals 19.75 and 40.00 |
| `Scenarios.ScenarioExactCategories` | expenses_tracker.py:107-111 | "Food", "food" and "Food " are three different categories |
| `Scenarios.ScenarioRetryAmount` | expenses_tracker.py:38-47 | the lines "abc", 0, -5, 15 give the refusals not-a-number, not-positive, not-positive and the amount 15 after four lines |
| `Scenarios.ScenarioRetryThenAdd` | expenses_tracker.py:38-59 | "abc", 0 and -5 are refused with their reasons, then 15 is recorded as the only record; the total view that follows shows 15 and "5" exits |

## Left out

- All printing and reading: the menu text (`display_menu`), the prompts, and
  the messages. A view's outcome is a `Report` value rather than text.
- The `:.2f` two-decimal formatting of amounts, which is presentation only.
- Python's `float()` conversion and its `ValueError`. A typed amount line is
  given already converted, as a number or as "not a number".
- IEEE floating point. Amounts are exact reals, so sums do not round.
  `float()` also accepts "nan" and "inf", and NaN passes the `amount <= 0`
  guard because every comparison with NaN is false. A real has no NaN or
  infinity, so the model cannot represent those inputs.
- End of input. The source does not handle it: `input()` raises an uncaught
  `EOFError` and the process stops. The model gives this case the status
  `InputEnded` and appends nothing. This happens when an add runs out of
  amount lines, and when no turn is left at the menu prompt.
- How input arrives. All lines typed in one menu pass are grouped into one
  `Turn`. The amount lines, category and description are read only for
  choice "1". A turn's amount lines are taken to end at the first accepted
  amount: any later amount lines are ignored, whereas the source would read
  the next line as the category (line 49). Input that ends after the amount,
  at the category or description prompt (lines 49-50), is not represented.
- The `__main__` guard and the process exit status.
- Idempotence of the views has no lemma. `ViewAll`, `ViewTotal` and
  `ViewTotalByCategory` have no `modifies` clause, so they cannot change the
  store. Their results are functions of the store alone.
