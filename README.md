# Bookkeeping ledger

A model of the in-memory ledger of a single-user bookkeeping program (`code.py`). The ledger is a
list of transaction records, each with a Date, a Description, a Type, a Category and an Amount.
The model covers these operations on that list:

- the loading loop, which converts each row's Amount and skips the rows where that fails;
- the Type filter behind the listing;
- the balance;
- the monthly expense summary;
- the three append actions (income, expense, payroll);
- the in-place edit of a record chosen by its 1-based position.

What the user types and the current date are parameters. Converting a text answer to an amount
(Python's `float(...)`) is a parameter too: `parse: string -> Option<real>`, with `None` for a
`ValueError`. So every property below holds for any conversion function.

Modules, one per concern of `code.py`:

- `Wrappers`: `Option`.
- `Text`: `.lower()` (ASCII), `s[:n]`, and `answer or fallback`.
- `Transactions`: the record type, the column list and the Type tests.
- `Load`: the row loop of `load_transactions`.
- `Views`: the filter of `show_transactions`, and `calculate_balance`.
- `Monthly`: `calculate_monthly_expenses`.
- `LedgerStore`: the `Ledger` class, whose methods append to the record list and edit it in place.
- `Scenarios`: worked examples.

Records built by `add_income` have no Category key, so `category` is an `Option<string>`. The
ledger's invariant (`Ledger.Valid`) says that a record without a Category has Type `"Income"`. So
every expense-typed record has a Category, which the monthly summary needs as its precondition.

Printing a record that has no Category fails: the listing reads its Category and raises a
`KeyError`, which nothing catches. `Show` returns `Unprintable` for such a listing. Editing lists
the whole ledger before it asks anything. So once the ledger holds an income record added
during the session (one without a Category), every edit fails before any change; `Update` returns `ListingFailed` with the ledger unchanged. The other
outcomes find every record with a Category, and all outcomes keep the invariant.

On these points the model follows what `code.py` does:

- A "blank" answer means the empty string. An answer of spaces is kept as the new value.
- `add_income` does not check that the description is non-empty.
- The `"N/A"` placeholder is applied only when loading.
- A loaded row without an Amount column gets `float(0)`, i.e. the amount 0. It is not skipped.

## Model

| member | source | states |
|---|---|---|
| `Text.Lower` | code.py:79 | `.lower()`: same length, each character lower-cased (ASCII letters only), and no upper-case letter left |
| `Text.LowerIdempotent` | code.py:79 | lower-casing twice equals lower-casing once, so the case-insensitive comparison is consistent |
| `Text.OrElse` | code.py:126 | `answer or fallback` on strings (also code.py:147, 149, 179-181): an empty answer gives the fallback, any other answer is kept |
| `Text.Prefix` | code.py:109 | `Date[:7]`: a prefix of the date, of length seven or the whole date when shorter |
| `Transactions.WellFormedCategoriesPresent` | code.py:135-140 | in a ledger where only `"Income"`-typed records lack a Category, every expense-typed record has one |
| `Load.RowAmount` | code.py:49 | `float(row.get('Amount', 0))`: a row without an Amount column converts as 0; otherwise the result is the conversion of its Amount text |
| `Load.Record` | code.py:49-55 | a row with every column present becomes the record with those texts, its Category present, and the converted Amount |
| `Load.WithDefaults` | code.py:53-54 | `setdefault`: every column is present afterwards; a column the row had keeps its text; only the absent ones get `"N/A"` |
| `Load.FillDefaults` | code.py:53-54 | the column-by-column setdefault loop produces exactly `WithDefaults` of the row |
| `Load.Loaded` | code.py:49-55 | a kept row's record: its Amount is the converted value, and each text column is the row's own text or `"N/A"` when absent; the Category is present |
| `Load.Coerce` | code.py:47-55 | the records the row loop produces: never more than the rows, and each has a Category |
| `Load.CoerceKeepsExactly` | code.py:47-55 | the loaded records correspond one to one, in increasing row order, to exactly the rows whose Amount converts, each built from its row |
| `Load.LoadRows` | code.py:47-55 | the loop returns the records of `Coerce`; skipped and kept rows add up to all rows; the result is well formed |
| `Views.Select` | code.py:79 | each record whose lower-cased Type equals the lower-cased filter appears as often as in the ledger; no other record appears |
| `Views.SelectAppend` | code.py:79 | filtering distributes over concatenation, so the kept records keep their original relative order |
| `Views.FilterByType` | code.py:78-79 | with no filter or an empty one, the whole ledger; otherwise exactly the records of the requested Type |
| `Views.Show` | code.py:74-91 | an empty ledger is reported as such; an active filter matching nothing is reported with the lower-cased filter; otherwise the non-empty filtered list, which prints only when every record in it has a Category (`Rows`) and otherwise fails with a KeyError (`Unprintable`) |
| `Views.Balance` | code.py:96-99 | balance = total of the income records minus the total of all other records, whatever their Type |
| `Views.BalanceAppend` | code.py:96-99 | the balance of a concatenation is the sum of the two balances |
| `Views.BalanceAppendOne` | code.py:96-99 | appending one record moves the balance by its amount, added for income and subtracted otherwise |
| `Monthly.Lookup` | code.py:111 | `monthly.get(key, 0)`: 0 for a key that is absent, otherwise the total paired with the key's first (only) occurrence |
| `Monthly.Bump` | code.py:111 | dictionary update: a known key keeps its position and grows by the amount, a new key is appended, other totals are unchanged |
| `Monthly.MonthKey` | code.py:108-110 | the key is the first min(7, length) characters of the Date, then `" - "`, then the Category |
| `Monthly.FirstOccurrencesSpec` | code.py:111 | the insertion-ordered keys contain each key once, exactly the keys seen, ordered by first occurrence |
| `Monthly.Summarize` | code.py:105-111 | the dictionary after the loop: at most one entry per record and no key twice |
| `Monthly.SummarizeTotals` | code.py:105-111 | the total under each key is the sum of the Amounts of the expense-typed records with that key |
| `Monthly.SummarizeKeys` | code.py:105-111 | the summary's keys are the keys of the expense-typed records in first-occurrence order |
| `Monthly.MonthlyExpenses` | code.py:103-111 | the loop's result has no duplicate key, exactly the expense keys in first-occurrence order, and per key the sum of the matching expense Amounts |
| `LedgerStore.Ledger.constructor` | code.py:217 | a session starts with the loaded records |
| `LedgerStore.Ledger.AddIncome` | code.py:123-141 | a converting amount appends one record at the end (blank date becomes today, Type `"Income"`, no Category) and raises the balance by the amount; otherwise nothing changes |
| `LedgerStore.Ledger.AddExpense` | code.py:144-163 | a converting amount appends one record at the end (blank date becomes today, blank category becomes `"Expense"`, Type `"Expense"`) and lowers the balance by it; otherwise nothing changes |
| `LedgerStore.Ledger.AddPayroll` | code.py:195-212 | a converting salary appends one record dated today, described `"Payroll - "` + employee, Type `"Expense"`, Category `"Payroll"`, and lowers the balance by it; otherwise nothing changes |
| `LedgerStore.Ledger.Update` | code.py:166-192 | an empty ledger, a ledger whose listing fails on a record without a Category, a non-integer position or an out-of-range position change nothing; otherwise only the chosen record changes, the length stays, blank answers keep old values, and a non-converting amount keeps the old Amount |
| `Scenarios.BalanceChargesUnknownTypes` | code.py:96-99 | income 100, expense 30 and a `"Transfer"` of 10 give a balance of 60 |
| `Scenarios.RentSharesOneKey` | code.py:105-111 | two January rent expenses of 500 and 200 give the single entry `"2024-01 - Rent"` = 700 |
| `Scenarios.NoIncomeAmongExpenses` | code.py:78-82 | filtering an all-expense ledger for `"Income"` reports no income records |
| `Scenarios.IncomeRecordStopsListing` | code.py:89-91 | listing a ledger that holds an income record without a Category fails at that record |

## Left out

- Creating and repairing the backing CSV file, reading it and writing it back. This is file I/O through the CSV library, whose quoting and reader semantics are not modelled. The rows arrive as `map<string, string>` values.
- Printing: the table, currency formatting and status messages. `Show` models the choice between the messages, the rows to print and whether printing them fails; it does not model the rows printed before the failing one.
- The interactive menu loop and the prompts. Each answer is a method parameter.
- The current date. It is the `today` parameter.
- Python's `float()`: it accepts forms such as `inf`, `nan`, exponents and surrounding spaces, and float sums round. The conversion is the `parse` parameter, and amounts are exact `real` values.
- Python's Unicode `.lower()`. `Text.Lower` lower-cases ASCII letters only.
- `LedgerStore.Ledger.Update`: the position answer arrives already converted (`None` when `int()` fails). The model does not say which strings `int()` accepts.
- Short CSV rows. The reader gives a missing value as `None`, not as an absent key, so `float(None)` raises a `TypeError`. That error ends the whole load loop and keeps the records read so far; the model does not capture it. Columns beyond the header are also not modelled.
- After `Unprintable` or `ListingFailed` the real program stops with an uncaught `KeyError`, losing unsaved records. The model returns instead, with the ledger unchanged.
