# Budget tracker ledger, in Dafny

A model of the expense ledger behind the budget tracker's web handlers
(`budget_tracker.py`). The application keeps one document, a budget and an
ordered list of expenses (description and amount), in a JSON file. Every
request loads that document, applies at most one positional change to the
expense list (append, remove at an index, replace at an index), writes the
document back when it changed, and answers with a page, a redirect to the
overview or a generic server error. The overview shows the total spent and
the remaining budget, `budget - sum(amounts)`.

The model has four modules:

- `Wrappers` (`wrappers.dfy`): `Option` and `Result`.
- `Ledger` (`ledger.dfy`): `Expense`, `Document`, the left-to-right `Sum` of
  the amounts, the positional edits `RemovedAt` and `ReplacedAt` with their
  effect on the sum, and the class `WorkingCopy`. That class is the
  `(initial_budget, expenses)` pair a handler holds after loading. Its methods
  mutate the list in place (`append`, `pop`, item assignment).
- `Persistence` (`persistence.dfy`): what a read of the file yields, as a
  `Disk` value (missing, unreadable, not valid JSON, or a decoded object with
  optional `budget` and `expenses` keys). `Load` gives the defaults of
  `load_budget_data`. `Save` gives the file that `save_budget_data` leaves
  behind.
- `Handlers` (`handlers.dfy`): the class `BudgetTracker`, whose only state is
  the file, with the four routes as methods. Each mutating route also returns
  whether it saved.

Amounts and the budget are exact `real`s.

Two points about error handling in the code:

- `load_budget_data` catches only `json.JSONDecodeError`
  (budget_tracker.py:25). A permission error or any other read failure
  escapes it, and the handler answers with a server error (`Disk.Unreadable`).
- `delete_expense` wraps its body in `try`/`except` like the other handlers
  (budget_tracker.py:70,77-79), so a read error there is answered with a
  server error too.

## Model

| member | source | states |
|---|---|---|
| `Ledger.SumConcat` | budget_tracker.py:45 | The total of two lists placed one after the other is the sum of their totals. |
| `Ledger.SumAppend` | budget_tracker.py:45 | Appending an expense raises the total spent by exactly its amount. |
| `Ledger.RemovedAt` | budget_tracker.py:72-73 | Removing position `index` shortens the list by one. Earlier elements stay in place and later ones shift down by one, keeping their order. The total drops by exactly the removed amount. |
| `Ledger.ReplacedAt` | budget_tracker.py:89-90 | Replacing position `index` keeps the length and puts the new record at `index`. Every other position is unchanged. The total changes by the new amount minus the old one. |
| `Ledger.WorkingCopy.constructor` | budget_tracker.py:57 | The working copy starts as the loaded budget and expenses. |
| `Ledger.WorkingCopy.Append` | budget_tracker.py:58 | The list gains exactly one element, at the end, and the earlier elements are unchanged. The budget is unchanged. The total grows by the added amount. |
| `Ledger.WorkingCopy.Pop` | budget_tracker.py:73 | For a checked index, returns the element at `index` and leaves the list as `RemovedAt`. The budget is unchanged. |
| `Ledger.WorkingCopy.Replace` | budget_tracker.py:90 | For a checked index, leaves the list as `ReplacedAt`. The budget is unchanged. |
| `Persistence.Load` | budget_tracker.py:16-31 | Loading fails exactly when the read raises something other than a JSON syntax error. A missing file or undecodable content gives budget 0 and no expenses. A decoded object gives its stored values, with 0 for an absent `budget` and the empty list for absent `expenses`. |
| `Persistence.Save` | budget_tracker.py:33-39 | The written file holds both keys, and loading it gives back exactly the saved budget and expenses, in order. |
| `Handlers.BudgetTracker.constructor` | budget_tracker.py:13-14 | The application starts from whatever the budget file holds. |
| `Handlers.BudgetTracker.Index` | budget_tracker.py:42-48 | A failed load is a server error. Otherwise the page shows the loaded budget and expenses. The total spent, accumulated by a loop from the left, equals `Sum` of the amounts. The remaining budget is the budget minus that sum. |
| `Handlers.BudgetTracker.AddExpense` | budget_tracker.py:50-66 | A missing description, an amount that does not parse, or a failed load gives a server error, leaves the file untouched and saves nothing. Otherwise the file holds the loaded budget, unchanged, and the loaded list with the new expense appended, and the response redirects. |
| `Handlers.BudgetTracker.DeleteExpense` | budget_tracker.py:68-79 | A failed load is a server error. Otherwise the response redirects. It saves exactly when `0 <= index < len`, and then the file holds the unchanged budget and the list with position `index` removed. Any other index leaves the file untouched. |
| `Handlers.BudgetTracker.EditExpense` | budget_tracker.py:81-96 | A missing description, an amount that does not parse, or a failed load is a server error, whatever the index. Otherwise the response redirects. It saves exactly when `0 <= index < len`, and then the file holds the unchanged budget and the list with position `index` replaced. Any other index leaves the file untouched. |
| `Handlers.CoffeeOnEmptyStore` | budget_tracker.py:42-79 | Starting from no file, adding "coffee" at 3.50 gives an overview of that single expense: total 3.50, remaining -3.50 against budget 0. Deleting index 5 afterwards leaves the overview as it was. |

## Left out

- The web framework: routing, reading `request.form`, templates, redirects, the
  500 response body and the development server. Form inputs arrive as
  `Option` values. A response is `Page`, `RedirectHome` or `ServerError`.
- File I/O and JSON text: the path, `os.path.exists`, `open`, `json.load`,
  `json.dump` and indentation. A read is given as a `Disk` value. A write is
  the `Disk` value that reading the file back would give.
- Failed writes: a write that fails is not modelled, so
  every save succeeds. In the code such a failure raises. The handler answers
  with a server error, and the file may have been truncated.
- Decoded JSON that is not an object, and entries of `expenses` that are not
  description/amount records. These are assumed well-formed.
- Present but ill-typed keys: the values of `budget` and `expenses` are
  assumed to be a number and a list of records. `.get` does not default a
  present `null` or wrongly typed value, and the handlers then fail.
- Float parsing and float arithmetic: `float(...)` is an `Option<real>` input,
  and sums are exact.
- Logging, which has no effect on behaviour.
- Concurrent requests racing on the shared file. Each handler is modelled as
  one sequential step on the file.
- Negative indices: Flask's `int` converter matches no negative numbers. The
  model keeps the handler's own `0 <= index` guard and takes any integer.
