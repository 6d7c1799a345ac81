# Spends tracker: the expense ledger

The spends tracker is a single React component for monthly expenses. It has a
form that adds an expense, a table of expenses with a delete action per row, and
a pie chart of totals by category. Its only logic is a small in-memory ledger.
This project models that ledger in Dafny (`spends_tracker.dfy`, module
`SpendsTracker`) and proves the ledger's properties.

- **State.** The class `Ledger` holds the component's two pieces of state.
  `dataSource` is the ordered list of `Entry(key, expenseName, category, expenseAmount)`.
  `expenseCategoriesTotal` is a `map<string, real>` of running totals. It starts
  with the five zeroed keys `Food`, `Transport`, `Groceries`, `RentAndAssets` and
  `Miscallaneous`. A missing key reads as 0 (`Get`), which models the source's `?? 0`.
- **Add.** `Ledger.Add` models the form's submit handler. The new key is the
  last entry's key plus one, or 1 when the list is empty (`NextKey`). The entry is
  appended, and its amount is credited to its category (`Credit`).
- **Delete.** `Ledger.Delete` models the delete handler. It keeps every entry
  whose key differs from the argument (`Filtered`, the `filter`). It looks up the
  first entry with that key in the list as it was before the delete (`Find`, the
  `find`). If that entry exists and its category is non-empty, its amount is
  debited from its category (`Debit`). Otherwise the totals stay as they are.
- **Pure view.** The functions `Added` and `Deleted` give the same two
  transitions on a `State` value. Each method's `ensures` ties the new state to
  them. The lemmas are stated over `State`. `Replay` runs any sequence of user
  actions.
- **Chart.** `ChartDetails` is the five-slice chart series. It reads the fixed
  keys without a default.

Two properties hold for every state reachable from the start through adds with
a non-empty category (the form makes the category a required field) and any
deletes (`LedgerInvariant`, `ReplayFromInitialIsConsistent`):
- keys are strictly increasing along the list, and therefore unique;
- for every category string `c`, `Get(totals, c)` equals the sum of the amounts
  of the entries in category `c` (`CategorySum`).

Three behaviours of the code matter to the model:

- **Keys are strictly increasing along the list and may be reused.** A key comes
  from the *last* entry, not from a counter. After the last entry is deleted,
  the next add hands out one more than the key of the entry before it, or 1
  (`DeleteLastReusesKey`). That is the deleted key itself whenever the two keys
  were consecutive. The `Sessions` method issues key 1 twice.
- **Categories are free strings.** The category select offers the value
  `Rent and Assets` (line 128), but the totals and the chart use the key
  `RentAndAssets`. Such expenses pile up under their own map key and never
  reach the chart (`RentAndAssetsOptionNotCharted`).
- **The handlers validate nothing.** Amounts may be any real, negative included.
  The only check is the delete handler's empty-category guard (line 63).

## Model

| member | source | states |
|---|---|---|
| `SpendsTracker.InitialTotals` | my-app/src/app/components/SpendsTracker.tsx:33-39 | the initial totals have exactly the five keys, and every category reads as 0 |
| `SpendsTracker.NextKey` | my-app/src/app/components/SpendsTracker.tsx:42-44 | the new key is at least 1, and on a strictly increasing list it exceeds every key already present |
| `SpendsTracker.Credit` | my-app/src/app/components/SpendsTracker.tsx:49-56 | the category's total (missing read as 0) grows by exactly the amount; the category becomes a key; every other key and value is unchanged |
| `SpendsTracker.Filtered` | my-app/src/app/components/SpendsTracker.tsx:60 | an entry survives exactly when it was in the list and its key differs from the deleted key; the list never grows |
| `SpendsTracker.Find` | my-app/src/app/components/SpendsTracker.tsx:62 | nothing is found exactly when no entry has the key; what is found is an entry of the list with that key |
| `SpendsTracker.Debit` | my-app/src/app/components/SpendsTracker.tsx:64-70 | the found entry's category total (missing read as 0) shrinks by exactly its amount; every other key and value is unchanged |
| `SpendsTracker.ChartDetails` | my-app/src/app/components/SpendsTracker.tsx:72-82 | five slices in the order Food, Transport, Groceries, Rent and Assets, Miscallaneous, each read from its fixed key (RentAndAssets for the fourth) |
| `SpendsTracker.Get` | my-app/src/app/components/SpendsTracker.tsx:53 | a category's total with a missing key read as 0 (the `?? 0` of lines 53 and 67); the totals lemmas (`Credit`, `Debit`, `Consistent`) are all stated through it |
| `SpendsTracker.Added` | my-app/src/app/components/SpendsTracker.tsx:40-58 | the list grows by exactly one entry at the end, with key last+1 (or 1), the earlier entries unchanged and in order; the category's total grows by the amount and no other total changes; see also `AddPreservesInvariant` and `AddThenDeleteRestores` |
| `SpendsTracker.Deleted` | my-app/src/app/components/SpendsTracker.tsx:59-71 | the list is the filtered one; nothing found leaves the totals as they were; no key disappears; every non-empty category's total drops by exactly what the first match in the pre-delete list contributes to it; see also `DeletePreservesInvariant`, `DeleteAbsentIsNoop`, `DeleteIdempotent` and `DeletePresentDebitsFirstMatch` |
| `SpendsTracker.FilteredAbsent` | my-app/src/app/components/SpendsTracker.tsx:60 | filtering on a key no entry has returns the list unchanged |
| `SpendsTracker.FilteredAppend` | my-app/src/app/components/SpendsTracker.tsx:60 | filtering distributes over concatenation, so the kept entries stay in their original order |
| `SpendsTracker.FilteredIncreasing` | my-app/src/app/components/SpendsTracker.tsx:60 | filtering a list with strictly increasing keys leaves a list with strictly increasing keys |
| `SpendsTracker.FilteredRemovesOne` | my-app/src/app/components/SpendsTracker.tsx:60 | with unique keys, deleting the key of entry i gives exactly the list without entry i |
| `SpendsTracker.FindFirst` | my-app/src/app/components/SpendsTracker.tsx:62 | `find` returns the first entry holding the key |
| `SpendsTracker.IncreasingKeysAreUnique` | my-app/src/app/components/SpendsTracker.tsx:42-47 | strictly increasing keys are pairwise distinct |
| `SpendsTracker.CategorySumAppend` | my-app/src/app/components/SpendsTracker.tsx:47-56 | the category sum of a concatenation is the sum of the parts' category sums |
| `SpendsTracker.CategorySumFiltered` | my-app/src/app/components/SpendsTracker.tsx:60-68 | with unique keys, deleting a key takes exactly the found entry's amount out of its category's sum, and nothing out of other categories |
| `SpendsTracker.AddPreservesInvariant` | my-app/src/app/components/SpendsTracker.tsx:40-58 | adding an entry with a non-empty category keeps keys strictly increasing, the five chart keys present, and every total equal to its category's sum |
| `SpendsTracker.DeletePreservesInvariant` | my-app/src/app/components/SpendsTracker.tsx:59-71 | deleting any key keeps keys strictly increasing, the five chart keys present, and every total equal to its category's sum |
| `SpendsTracker.DeleteAbsentIsNoop` | my-app/src/app/components/SpendsTracker.tsx:60-63 | deleting a key no entry has changes neither the list nor the totals |
| `SpendsTracker.DeleteIdempotent` | my-app/src/app/components/SpendsTracker.tsx:59-71 | deleting the same key twice has the same effect as deleting it once |
| `SpendsTracker.DeletePresentDebitsFirstMatch` | my-app/src/app/components/SpendsTracker.tsx:62-70 | deleting a present key lowers its category total by the amount of the first entry with that key in the list before the delete; no other total changes |
| `SpendsTracker.AppendedFreshKey` | my-app/src/app/components/SpendsTracker.tsx:42-47 | an entry appended under a key not yet present is the entry `find` returns, and the only entry `filter` drops |
| `SpendsTracker.DebitUndoesCredit` | my-app/src/app/components/SpendsTracker.tsx:52-68 | debiting an entry right after crediting its amount restores its category's total, with the map keeping that key |
| `SpendsTracker.AddThenDeleteRestores` | my-app/src/app/components/SpendsTracker.tsx:40-71 | add followed by delete of the new key restores the list and every total (missing read as 0); the map is identical if the category was a key before, and otherwise keeps that key at 0 |
| `SpendsTracker.DeleteLastReusesKey` | my-app/src/app/components/SpendsTracker.tsx:42 | deleting the last entry drops exactly it; the next key is 1 or one more than the key now last, never more than the deleted key, and equal to it when the two keys were consecutive |
| `SpendsTracker.InitialSatisfiesInvariant` | my-app/src/app/components/SpendsTracker.tsx:29-39 | the empty list with the five zeroed totals satisfies the ledger invariant |
| `SpendsTracker.ReplayPreservesInvariant` | my-app/src/app/components/SpendsTracker.tsx:40-71 | any sequence of adds (with non-empty categories) and deletes keeps the ledger invariant |
| `SpendsTracker.ReplayFromInitialIsConsistent` | my-app/src/app/components/SpendsTracker.tsx:33-71 | from the start, after any sequence of adds and deletes, every category's total equals the sum of its entries' amounts |
| `SpendsTracker.ChartReflectsEntries` | my-app/src/app/components/SpendsTracker.tsx:75-81 | in a reachable state each chart slice equals the sum of the amounts of the entries filed under its key |
| `SpendsTracker.RentAndAssetsOptionNotCharted` | my-app/src/app/components/SpendsTracker.tsx:127-130 | an expense with the select's value "Rent and Assets" raises that string's own total and leaves the whole chart series unchanged |
| `SpendsTracker.Ledger.constructor` | my-app/src/app/components/SpendsTracker.tsx:29-39 | the ledger starts with an empty list and the five zeroed totals, and satisfies the invariant |
| `SpendsTracker.Ledger.Add` | my-app/src/app/components/SpendsTracker.tsx:40-58 | returns the key last+1 (or 1); the list becomes the old list plus that one entry at the end; the totals are the old totals credited by the amount; the invariant is kept when the category is non-empty |
| `SpendsTracker.Ledger.Delete` | my-app/src/app/components/SpendsTracker.tsx:59-71 | the list becomes the old list without the entries holding the key, in order; the totals are debited by the first match found in the old list, unless there is none or its category is empty; the invariant is kept |
| `SpendsTracker.Ledger.GetChartDetails` | my-app/src/app/components/SpendsTracker.tsx:72-82 | five slices with the fixed labels, each the sum of the amounts of the current entries under its fixed key |

## Left out

- React and antd wiring: `useState` setters, their batching and the updater
  callbacks, `Form.useForm` and `resetFields`, the table columns, `Popconfirm` and
  the JSX. Each handler is modelled as one atomic, sequential transition.
- The ECharts options object. It is presentation only.
- The select's `filterSort` comparator. It depends on the host's locale-sensitive
  `localeCompare`.
- `console.log` calls. They are I/O.
- JavaScript number and string coercion. Amounts are exact `real`s. `parseFloat`
  is taken as the identity on numbers. Floating-point rounding is not modelled,
  so the model's `x + a - a == x` is exact where the browser may round. The case
  where the form delivers the amount as a string and `+` concatenates is not
  modelled.
- A key held as a string is not modelled. The key field is declared `string` but
  is computed as a number, so the model uses `nat`.
- Category strings that name inherited object properties (such as `constructor`)
  are not modelled. On a plain object, `?? 0` would not see them as missing.
- `Ledger.Add` returns the new key, which the submit handler does not do. The
  returned key only lets callers state the add-then-delete round trip.
- `SpendsTracker.Ledger.Add`: keeps the invariant only when the category is
  non-empty. The form makes the category required, and the delete handler skips
  the totals update for an empty category, so an empty category would desynchronise
  the totals. The model proves nothing about that case.
- `SpendsTracker.ChartDetails`: requires the five fixed keys to be present. The
  source reads them without a default, and the invariant always keeps them present.
