# Expense tracker: the expense store and its derived views

This project models the logic inside the expense-tracking app's three data
screens. That logic is pulled out of the React components into plain Dafny
operations over one stored collection of `Expense` records (`id`, `title`,
`amount`, `category`, `date`, `imageUri`).

- **Adding an expense** (`AddExpense`): the form state is the class
  `AddExpenseForm`. `SaveExpense` runs the validation guard, builds the
  record, and reads, pushes and writes back the stored list. On success it
  clears the title, the amount and the image. It ends with one of the three
  notices the screen shows.
- **The history list** (`ExpenseList`): `ExpenseListScreen.FetchExpenses`
  loads the list. `ApplyFilters` runs the three conditional filter stages
  (category unless `'All'`, start date, end date; both bounds inclusive). It
  is proved equal to one conjunctive, order-preserving filter, `Filtered`.
  `Expenses.Total` is the running total shown above the list.
- **The summary chart** (`Chart`): `AccumulateTotals` is the bucket loop of
  `loadData`, proved against `Buckets`. `PieData` keeps the positive
  buckets in the order Food, Travel, Shopping, Other and colours each one by
  its position among the survivors. `GetTotal` is `getTotal`, and
  `Summarize` is the breakdown with its percentages.
- **Shared pieces** (`Expenses`, `Lists`): the record, the storage entry
  (`Blob`, with `Load`), and an order-preserving `Filter` with the same
  meaning as `Array.prototype.filter`.
- **`Walkthrough`**: an end-to-end client. Two expenses are saved into empty
  storage, the list is narrowed to Food, and the chart is summarised.

Representation choices:
- Amounts are exact `real`s.
- Dates are integer timestamps.
- A record's `category` is a free string, because storage can hold any
  value. The pickers produce the closed `Category` type.
- The storage entry is `Absent`, `Stored(records)` or `Corrupt`. Storing and
  parsing are assumed to round-trip. `Corrupt` stands for any payload on
  which `JSON.parse` or the later `push` throws.
- The clock reading used as the id, the `isNaN` and `parseFloat`
  coercions, and whether the storage write succeeds are all parameters.

The model keeps these behaviours of the code:
- Validation does not check the sign of the amount, so `"0"` and `"-5"` are
  accepted and stored as they parse.
- The chart drops every bucket whose total is zero or negative
  (`NegativeBucketHasNoSlice`).
- A slice's colour depends on which categories before it survive
  (`ColourFollowsSurvivingPosition`).

## Model

| member | source | states |
|---|---|---|
| `AddExpense.AddExpenseForm.constructor` | src/screens/AddExpenseScreen.js:20-25 | the form starts with empty title and amount, category Food, the current date and no image |
| `AddExpense.AddExpenseForm.SaveExpense` | src/screens/AddExpenseScreen.js:28-56 | an empty title, an empty amount or an amount that coerces to NaN gives the validation notice (this guard is the predicate `AddExpense.Acceptable`), and nothing is read, written or reset; no sign check is made. A corrupt stored list or a failed write gives the error notice, and storage and form stay unchanged. Otherwise the stored list becomes the old list (empty when nothing was stored) with exactly one new record at the end: the id, title, `parseFloat(amount)`, the picker's category name, the date and the image. Then title, amount and image are cleared while category and date keep their values |
| `Expenses.Category.Name` | src/screens/AddExpenseScreen.js:104-107 | every category the picker can produce is one of Food, Travel, Shopping, Other |
| `Expenses.Load` | src/screens/ExpenseListScreen.js:39-40 | an absent entry reads as the empty list, a stored one as its records, and only a corrupt one fails |
| `Expenses.Total` | src/screens/ExpenseListScreen.js:62 | the total of an empty list is 0, and a list of non-negative amounts has a non-negative total |
| `Expenses.TotalAppend` | src/screens/ExpenseListScreen.js:62 | the total of two lists joined is the sum of their totals |
| `ExpenseList.ExpenseListScreen.constructor` | src/screens/ExpenseListScreen.js:19-24 | the screen starts with no records, category 'All' and no date bounds |
| `ExpenseList.ExpenseListScreen.FetchExpenses` | src/screens/ExpenseListScreen.js:38-42 | an absent entry loads as the empty list and a stored one as its records; a corrupt entry leaves the list as it was |
| `ExpenseList.ExpenseListScreen.ApplyFilters` | src/screens/ExpenseListScreen.js:44-60 | the three conditional stages run in sequence give exactly the one-pass conjunctive filter of the current list and criteria; the loaded list is not modified |
| `ExpenseList.FilteredSound` | src/screens/ExpenseListScreen.js:47-57 | every shown record is in the list, has the chosen category unless 'All', and has a date at or after the start and at or before the end when those are set |
| `ExpenseList.FilteredComplete` | src/screens/ExpenseListScreen.js:44-59 | every record of the list that meets all active criteria is shown |
| `ExpenseList.FilteredInOrder` | src/screens/ExpenseListScreen.js:45-59 | the shown records are a subsequence of the list, in its order |
| `ExpenseList.FilteredIdempotent` | src/screens/ExpenseListScreen.js:44-60 | filtering the result again with the same criteria changes nothing |
| `ExpenseList.NoCriteriaShowsAll` | src/screens/ExpenseListScreen.js:45-57 | with 'All' and no date bounds the whole list is shown |
| `ExpenseList.FilteredTotalSplits` | src/screens/ExpenseListScreen.js:62 | the total of the shown records plus the total of the hidden ones is the total of the list |
| `Chart.CategoryTotal` | src/screens/ChartScreen.js:28-32 | a category's sum over non-negative amounts is non-negative |
| `Chart.CategoryTotalAppend` | src/screens/ChartScreen.js:28-32 | a category's sum over two lists joined is the sum of its two sums |
| `Chart.BucketsStartAtZero` | src/screens/ChartScreen.js:21-26 | before any record is visited, the four buckets Food, Travel, Shopping and Other hold 0 |
| `Chart.AccumulateTotals` | src/screens/ChartScreen.js:21-32 | after the loop the totals have exactly the four category names as keys, each holding the sum of its category's amounts |
| `Chart.UnknownCategoryIgnored` | src/screens/ChartScreen.js:29 | a record whose category is not one of the four changes no bucket, wherever it sits in the list |
| `Chart.KnownCategoryAddsToItsBucket` | src/screens/ChartScreen.js:29-31 | a record of a known category adds its amount to its own bucket and leaves the other three alone |
| `Chart.BucketsHoldGrandTotal` | src/screens/ChartScreen.js:28-32 | when every record has a known category, the four buckets add up to the list's total |
| `Chart.PieData` | src/screens/ChartScreen.js:34-43 | the buckets are read in declaration order (`Chart.Entries`, the `Object.entries` step) and filtered; there are at most four slices, so the colour index stays within the palette; every slice is positive; the i-th slice has the i-th colour |
| `Chart.PieDataHasPositiveBuckets` | src/screens/ChartScreen.js:35-39 | a category has a slice exactly when its bucket is positive, and the slice carries the bucket's total |
| `Chart.PieDataInDeclarationOrder` | src/screens/ChartScreen.js:21-37 | slices follow the order Food, Travel, Shopping, Other, so no name appears twice |
| `Chart.ColourFollowsSurvivingPosition` | src/screens/ChartScreen.js:34-40 | Travel gets the first colour when Food has no slice and the second colour when it has one |
| `Chart.NegativeBucketHasNoSlice` | src/screens/ChartScreen.js:36 | a category whose total is negative gets no slice |
| `Chart.GetTotal` | src/screens/ChartScreen.js:48 | for positive slices, the total is positive exactly when there is at least one slice |
| `Chart.ChartTotalIsPositiveBuckets` | src/screens/ChartScreen.js:48 | the chart's total is the sum of the positive buckets |
| `Chart.ChartTotalIsGrandTotal` | src/screens/ChartScreen.js:48 | when every record has a known category and a non-negative amount, the chart's total is the total of all records |
| `Chart.PercentSumScales` | src/screens/ChartScreen.js:81-83 | the percentages against a total `t` add up to the slices' sum divided by `t`, times 100 |
| `Chart.SharesAddToHundred` | src/screens/ChartScreen.js:81-83 | the percentages of a chart's slices against its own non-zero total add up to 100 |
| `Chart.SharesWithinHundred` | src/screens/ChartScreen.js:83 | each positive slice's percentage of the chart's total lies in (0, 100] |
| `Chart.Summarize` | src/screens/ChartScreen.js:54-92 | an empty chart shows "No data available" and no division is done; otherwise there is one row per slice (built by `Chart.RowsOf`, the breakdown `map`), with the same name, amount and colour and a percentage in (0, 100], and the percentages add up to 100 before rounding |
| `Chart.ChartScreen.constructor` | src/screens/ChartScreen.js:10 | the chart starts empty |
| `Chart.ChartScreen.LoadData` | src/screens/ChartScreen.js:17-46 | the chart becomes the pie data of the stored list's category totals, and every slice stays positive; a corrupt entry leaves the chart as it was |
| `Walkthrough.SaveLunchThenTaxi` | src/screens/AddExpenseScreen.js:34-48 | saving Lunch (500, Food) and then Taxi (300, Travel) into empty storage stores exactly those two records, in that order |
| `Walkthrough.BrowseLunchAndTaxi` | src/screens/ExpenseListScreen.js:38-60 | with those two records stored, the list narrowed to Food shows only Lunch, and the chart (src/screens/ChartScreen.js:28-83, as in `SplitBetweenFoodAndTravel`) shows Food 500 at 62.5% and Travel 300 at 37.5% |
| `Walkthrough.FoodFilterKeepsLunch` | src/screens/ExpenseListScreen.js:47-49 | the Food filter over Lunch and Taxi keeps only Lunch |
| `Walkthrough.SplitBetweenFoodAndTravel` | src/screens/ChartScreen.js:28-83 | Lunch and Taxi summarise to Food 500 (62.5%) and Travel 300 (37.5%) |

## Left out

- Storage I/O and serialisation (`AsyncStorage.getItem`/`setItem`, `JSON.parse`/`stringify`) are left out. The entry is the `Blob` value, writing and reading back is assumed to round-trip, and any payload that fails to parse or is not an array is the single `Corrupt` case.
- A read that faults for reasons other than the payload is not modelled separately. In the save it behaves like `Corrupt`.
- `ExpenseList.ExpenseListScreen.FetchExpenses`: `Corrupt` stands for any payload that does not give an array. The save's `push` and the chart's `forEach` throw on all of these, but the list screen throws only when `JSON.parse` itself fails. A payload that parses to a non-array (`{}`, `null`, `5`) is stored as the list by `setExpenses`. The next `applyFilters` then throws when it spreads it, and a JSON string is spread into its characters. The model does not capture this; for every `Corrupt` payload it leaves the list unchanged.
- The asynchronous suspension points, React hooks, and the `useEffect` re-runs of `applyFilters` when the criteria or list change are left out. `ApplyFilters` is a method the caller invokes, and the pickers' setters are plain assignments to `criteria`.
- Two screens racing on the one entry, and a screen's copy going stale after another screen saves, are left out. Both are concurrency matters.
- The id comes from `Date.now()`. It is a parameter here, and its uniqueness is not modelled.
- `SaveExpense`: `isNaN` and `parseFloat` are independent parameters, and `parseFloat` always yields a real. In the source the guard's `Number()` coercion and the stored `parseFloat` can disagree. `" "` passes the guard but parses to NaN, and `"0x10"` is 16 to one and 0 to the other. `JSON.stringify` writes a NaN amount as `null`, so such a record is stored with a `null` amount. Both sums (the list total and the chart's `+=`) count that `null` as 0, so a `parseFloat` that returns 0.0 gives the same totals. Drawing the record's row in the list (`item.amount.toFixed(2)`) throws on it. The model's records always carry a real amount, so the `null` itself is not represented.
- Floating-point addition and the `toFixed(1)`/`toFixed(2)` display rounding are left out. Amounts and percentages are exact reals.
- Dates are integer timestamps, so an unparseable stored date (whose comparisons are always false in the source) is not modelled.
- A stored category equal to an inherited object property such as `toString` passes the source's `!== undefined` test. It then produces a non-numeric entry that `val > 0` drops. The model treats such names as unknown, which yields the same slices.
- The slices' `legendFontColor` and `legendFontSize`, the PieChart drawing, the image picker and camera, the date and category picker widgets, the alerts (they are the `SaveOutcome` values), and all styles are left out.
- `Chart.Summarize` requires every slice to be positive. `PieData` guarantees this, and it is the only source of the chart's data (`ChartScreen.Valid`).
- App.tsx (screen switching), src/screens/HomeScreen.js (static landing page) and src/context/ThemeContext.js (a light/dark toggle) are not part of this model. They hold no logic beyond UI composition.
