# Budget table widget: status rule, screen selection and deletion workflow

This project models the decision logic of the budget table widget
(`BudgetTableWidget`). The widget fetches budget lines, shows
planned against actual spending with a derived status, and lets the user
bulk-delete lines. Three pieces of logic are modelled and proved. Everything
else in the widget is wiring to a query cache, an HTTP service, a
notification surface and presentational components.

- **Status rule** (`BudgetStatus`). A budget line's status is computed from
  its actual spending (`currentSpending`) and its plan (`amountInCents`).
  The rule tests equality first ("Wykorzystany", exhausted), then "above
  plan" ("Przekroczone", overrun), then "below plan" ("W normie", on track).
  `Classify` keeps the renderer's implicit fall-through as `None`, and its
  contract proves that integer amounts never reach it. The lemmas prove each
  label in both directions, prove exhaustiveness and mutual exclusivity, and
  count the statuses over a whole status column.
- **Screen selection** (`BudgetView`). The query state (pending flag, error,
  data) selects exactly one of Loader, Error, NoContent or Table. A pending
  fetch wins over everything. An error wins over data. Absent data and an
  empty result set both give NoContent. The table gets the fetched records
  unchanged and in order, and each row's identity is its `id`.
- **Deletion workflow** (`BudgetDeletion`). `deleteRecords(ids)` forwards
  `ids` unchanged to the remove call. On success the widget refetches the
  budget query, then the partial-categories query, then shows a success
  notification. On failure it shows only an error notification. The class
  `BudgetTableWidget` records these effects in a ghost effect log, and the
  remove call's outcome is a parameter. A ghost history of deletions is tied
  to the log by the class invariant. Lemmas over any history prove the
  ordering and the counts. A success notification always comes right after
  the two refetches. Either refetch happens only as part of that
  three-step sequence, which starts right after a remove call. An error
  notification always comes right after a remove call. Each cache is refetched exactly once per successful deletion
  and never after a failed one. There is one remove call per deletion, with
  that deletion's ids, in order.

Record identifiers are opaque in the source and are modelled as `int`. The
amounts are integers in cents, so they are modelled as unbounded `int`. The
source uses no arithmetic on them, only comparisons, so no width matters.
The ids passed to `deleteRecords` are whatever the table hands over. They are
modelled as a sequence and are passed through unchanged.

NoContent is shown when the data is absent as well as when it is empty,
because the code tests `!data?.length` (BudgetTable.widget.jsx:78). The two
refetches are awaited one after the other (lines 25-26), so the budget
refetch comes before the partial-categories refetch, and both come before the
notification (line 27).

## Model

| member | source | states |
|---|---|---|
| `BudgetStatus.Label` | client/src/ui/organisms/BudgetTable.widget.jsx:58-60 | Every status is shown as one of the three labels the renderer returns. |
| `BudgetStatus.Classify` | client/src/ui/organisms/BudgetTable.widget.jsx:57-61 | The three-test status rule never falls through to "no result" for integer amounts. |
| `BudgetStatus.StatusCell` | client/src/ui/organisms/BudgetTable.widget.jsx:57-61 | A row's status cell always holds a label: "Wykorzystany" exactly when spending equals plan, "Przekroczone" exactly when spending is above plan, "W normie" exactly when it is below. |
| `BudgetStatus.ExhaustedIffEqual` | client/src/ui/organisms/BudgetTable.widget.jsx:58 | The status is Exhausted if and only if actual and planned amounts are equal. |
| `BudgetStatus.OverrunIffAbove` | client/src/ui/organisms/BudgetTable.widget.jsx:59 | The status is Overrun if and only if actual spending is above plan. |
| `BudgetStatus.OnTrackIffBelow` | client/src/ui/organisms/BudgetTable.widget.jsx:60 | The status is OnTrack if and only if actual spending is below plan. |
| `BudgetStatus.ExactlyOneStatus` | client/src/ui/organisms/BudgetTable.widget.jsx:57-61 | For every pair of amounts exactly one status describes it, and that status is the one the rule returns. |
| `BudgetStatus.LabelInjective` | client/src/ui/organisms/BudgetTable.widget.jsx:58-60 | The three labels are pairwise distinct, so a displayed label identifies the status. |
| `BudgetStatus.StatusColumn` | client/src/ui/organisms/BudgetTable.widget.jsx:54-61 | The status column has one entry per row, in row order, each the status the rule gives for that row. |
| `BudgetStatus.StatusTally` | client/src/ui/organisms/BudgetTable.widget.jsx:57-61 | Over a table, each status appears in the column exactly as many times as there are rows whose amounts it describes. |
| `BudgetStatus.StatusesCoverRows` | client/src/ui/organisms/BudgetTable.widget.jsx:57-61 | The rows described by the three statuses add up to all rows of the table. |
| `BudgetStatus.StatusColumnExample` | client/src/ui/organisms/BudgetTable.widget.jsx:57-61 | Rows with spending equal to, above and below a plan of 5000 get Exhausted, Overrun and OnTrack, in that order. |
| `BudgetView.HasRows` | client/src/ui/organisms/BudgetTable.widget.jsx:78 | `data?.length` is truthy exactly when the data exists and is non-empty: JavaScript's falsy `undefined` and `0` mean absent data and an empty result. |
| `BudgetView.Render` | client/src/ui/organisms/BudgetTable.widget.jsx:70-89 | Loader exactly when loading. The error screen, carrying the error, exactly when not loading and an error is present. NoContent exactly when neither holds and data is absent or empty. Otherwise the table, whose rows are the fetched data unchanged and never empty. |
| `BudgetView.RowIds` | client/src/ui/organisms/BudgetTable.widget.jsx:84-86 | The table's row identities are the records' `id`s, one per row, in row order. |
| `BudgetView.NoEmptyTable` | client/src/ui/organisms/BudgetTable.widget.jsx:78-80 | With no pending fetch and no error, both absent data and an empty result give NoContent; no query state ever yields a table with no rows. |
| `BudgetDeletion.DeletionEffects` | client/src/ui/organisms/BudgetTable.widget.jsx:23-34 | One deletion first issues the remove call with the ids unchanged and ends with the success notice if remove succeeded, else the error notice. Each cache is refetched if and only if remove succeeded. No other remove call follows. |
| `BudgetDeletion.SuccessfulDeletion` | client/src/ui/organisms/BudgetTable.widget.jsx:23-28 | A successful deletion issues exactly: remove with the given ids, refetch of the budget query, refetch of the partial-categories query, the success notification; its only notification is a success. |
| `BudgetDeletion.FailedDeletion` | client/src/ui/organisms/BudgetTable.widget.jsx:29-31 | A failed deletion issues exactly: remove with the given ids, then the error notification; no cache refetch and no success notification. |
| `BudgetDeletion.DeletionCounts` | client/src/ui/organisms/BudgetTable.widget.jsx:23-31 | One deletion refetches each cache and notifies success once if remove succeeded and never otherwise, and notifies the error exactly when it failed. |
| `BudgetDeletion.DeleteThreeAndSeven` | client/src/ui/organisms/BudgetTable.widget.jsx:23-28 | Successfully deleting ids 3 and 7 refetches each cache exactly once, notifies success once, and passes `[3, 7]` to remove. |
| `BudgetDeletion.WellOrderedAppend` | client/src/ui/organisms/BudgetTable.widget.jsx:23-31 | Appending one deletion's effects to a well-ordered effect log keeps it well ordered. |
| `BudgetDeletion.LogWellOrdered` | client/src/ui/organisms/BudgetTable.widget.jsx:23-34 | In the effects of any sequence of deletions, every success notification comes right after the budget then partial-categories refetches. Every budget refetch comes right after a remove call and is followed by those two. Every partial-categories refetch sits between the budget refetch and the success notification. Every remove call is followed by a refetch or an error notification. Every error notification follows a remove call. |
| `BudgetDeletion.LogCounts` | client/src/ui/organisms/BudgetTable.widget.jsx:23-34 | Over any sequence of deletions, each cache is refetched and success notified once per successful deletion, and the error is notified once per failed deletion. |
| `BudgetDeletion.RemovedIdsOfDeletion` | client/src/ui/organisms/BudgetTable.widget.jsx:23-34 | One deletion issues exactly one remove call, carrying the ids it was given. |
| `BudgetDeletion.LogRemovals` | client/src/ui/organisms/BudgetTable.widget.jsx:23-34 | Over any sequence of deletions, the remove calls carry exactly the ids handed to each deletion, one per deletion, in order. |
| `BudgetDeletion.BudgetTableWidget.RemoveRecords` | client/src/ui/organisms/BudgetTable.widget.jsx:23 | The mutation function issues one remove call with the ids unchanged. |
| `BudgetDeletion.BudgetTableWidget.RefetchQueries` | client/src/ui/organisms/BudgetTable.widget.jsx:25-26 | A refetch appends exactly one refetch of the given query to the log. |
| `BudgetDeletion.BudgetTableWidget.EnqueueSnackbar` | client/src/ui/organisms/BudgetTable.widget.jsx:27-30 | A notification appends exactly that message and variant to the log. |
| `BudgetDeletion.BudgetTableWidget.OnSuccess` | client/src/ui/organisms/BudgetTable.widget.jsx:24-28 | On success, the log grows by the budget refetch, the partial-categories refetch and the success notification, in that order. |
| `BudgetDeletion.BudgetTableWidget.OnError` | client/src/ui/organisms/BudgetTable.widget.jsx:29-31 | On error, the log grows by the error notification only. |
| `BudgetDeletion.BudgetTableWidget.DeleteRecords` | client/src/ui/organisms/BudgetTable.widget.jsx:34 | A deletion appends its effects to the log and itself to the history, and keeps the log equal to the history's effects and well ordered. |

## Left out

- JSX rendering, the component lifecycle and the hooks `useQuery`, `useMutation`, `useQueryClient` and `useSnackbar`. They are library behaviour; only their observable inputs (the query state, the remove outcome) and outputs (screen, effects) are modelled.
- The `findAll` and `remove` network calls and the query cache's internals. They are I/O; the query state and the outcome of `remove` are parameters.
- Formatting of the other columns (`Money`, `LocalizedDate`, `CategoryCell`), including the display of a missing category. These are presentational components outside this model.
- Selection, sorting and pagination in the generic `Table` component. It is an external component, and it decides which ids reach `deleteRecords`.
- Overlapping deletions and callbacks that fire after the widget is gone. The source specifies no concurrency policy, so the model settles each deletion before the next starts.
- Amounts that are not integers. For NaN, or `undefined` against a number, all three comparisons fail and the cell is empty. Two `undefined` (or two `null`) amounts are strictly equal, so the cell shows "Wykorzystany". A numeric string equal to the number, such as `"5000"` against `5000`, fails the strict `===` and also leaves the cell empty. Strings, `null` and booleans are converted or compared as text by `>` and `<`, so a label can still appear. The amounts are integers in cents.
- How a notification is displayed. The widget passes only a message and a variant, and the model keeps both.
