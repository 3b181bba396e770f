# Expense tracker bookkeeping, modelled in Dafny

This project models the in-memory bookkeeping of a personal expense tracker (a
React app). Users log income and expense transactions on an entry form, see the
five most recent ones, delete them after a confirm, and inspect a filtered
summary: income and expense totals, the balance, and a per-category expense
breakdown sorted by amount.

The model has one module per source file, plus one shared module:

- `Types` (`types.dfy`): the transaction type, the two category enums with
  their labels, calendar dates with their `YYYY-MM-DD` form, the transaction
  record, the filter state and chart points.
- `Sorting` (`sorting.dfy`): the platform's stable comparator sort, used with a
  descending key. It is modelled as insertion sort, and the module proves it
  sorted, a permutation and stable.
- `Analysis` (`analysis.dfy`): the range filter, the totals, the breakdown and
  the insight context label of the analysis screen. The breakdown is a method
  with a loop over the expense records. The loop updates an insertion-ordered
  list of entries, which stands for the JavaScript `Map`, and then sorts it.
- `Store` (`store.dfy`): the app's transaction list, a class
  `TransactionStore` with a `seq<Transaction>` field, and `Load`, `Add` and
  `Delete` methods. Its invariant is "sorted by date, newest first".
- `EntryForm` (`form.dfy`): the entry form, a class `AddForm` whose fields
  are the form state. It has the type toggle, the field edits and the
  submit. The module also holds the pure category tint choice and the
  recent-list window.

Modelling choices:

- Amounts are integers in minor units (for example paise).
- Dates are `(year, month, day)` triples, compared lexicographically.
- Today's date, the new record's id and timestamp, and the answer to the
  delete confirm are parameters. The id is required to be fresh, which is
  how `crypto.randomUUID()` is modelled.
- `Number(amount)` is an abstract parameter `toNumber: string -> Option<int>`,
  where `None` stands for NaN.
- The store sorts by the key `YYYYMMDD` (`Store.DateKey`). On valid dates
  this key orders exactly as calendar order does, and so as the
  `getTime()` values do (`Store.DateKeyIsCalendarOrder`).

Three things one might expect that the code does not do:

- Zero and negative amounts are accepted. Submit rejects only an empty
  or non-numeric amount.
- A stored transaction's category is an unconstrained string
  (`Types.CategoryIsUnconstrained`). Only the form's select keeps the category
  inside the set of the selected type (`EntryForm.AddForm.Valid`).
- Records with the same date are ordered by the stability of the sort, not by
  an explicit creation-time key. A new record is prepended, so it ends up
  first among records with its date (`Store.AddPutsNewFirstAmongSameDate`).

## Model

| member | source | states |
|---|---|---|
| Types.ExpenseLabel | types.ts:3-21 | the string value of each expense enum member, a definition with no contract of its own; `ExpenseLabelRoundTrip` and `ExpenseLabelsDistinct` state its properties |
| Types.IncomeLabel | types.ts:23-32 | the string value of each income enum member, a definition with no contract of its own; `IncomeLabelRoundTrip` and `IncomeLabelsDistinct` state its properties |
| Types.ExpenseLabelRoundTrip | types.ts:3-21 | looking up an expense enum member's label gives back that member |
| Types.IncomeLabelRoundTrip | types.ts:23-32 | looking up an income enum member's label gives back that member |
| Types.ParseExpenseCategory | types.ts:3-21 | a label found among the expense enum values is the label of the member returned |
| Types.ParseIncomeCategory | types.ts:23-32 | a label found among the income enum values is the label of the member returned |
| Types.ExpenseLabelsDistinct | types.ts:3-21 | two expense members have the same label iff they are the same member |
| Types.IncomeLabelsDistinct | types.ts:23-32 | two income members have the same label iff they are the same member |
| Types.CategoryListsComplete | types.ts:3-32 | the value lists hold 17 and 8 pairwise-distinct labels and every enum member |
| Types.OnlySharedLabelIsOthers | types.ts:20-31 | a string is in both label sets iff it is "Others", so the sets are not disjoint |
| Types.SharedCategories | types.ts:20-31 | an expense and an income member share a label iff both are the Others members |
| Types.TypeIsExpenseOrIncome | types.ts:1 | a transaction type is exactly one of expense or income |
| Types.RangeIsOneOfThree | types.ts:44 | a time range is exactly one of month, year or custom |
| Types.CategoryIsUnconstrained | types.ts:34-42 | the record admits an income transaction that carries an expense-only label |
| Types.DaysInMonth | types.ts:37 | month lengths lie between 28 and 31, and February has 29 days exactly in Gregorian leap years |
| Types.ValidDate | types.ts:37 | a date a `YYYY-MM-DD` string can denote: a four-digit year, a month 1-12 and a day within that month, a definition with no contract of its own |
| Types.DateLe | components/ScreenAnalysis.tsx:54 | calendar order of dates (year, then month, then day), a definition with no contract of its own; `DateLeIsTotalOrder` proves it a total order and `Store.DateKeyIsCalendarOrder` ties it to the sort key |
| Types.DateLeIsTotalOrder | components/ScreenAnalysis.tsx:54 | date comparison is reflexive, total, antisymmetric and transitive |
| Types.DayBeforeMonth | components/ScreenAnalysis.tsx:45-46 | the day before a month's first day is valid, earlier than the first, and no valid date lies between them |
| Types.IsoDate | types.ts:37 | the `YYYY-MM-DD` form of a date is ten characters with dashes at positions 4 and 7 |
| Types.ParseIsoDate | types.ts:37 | a string that parses has the `YYYY-MM-DD` shape; `IsoDateRoundTrip` proves it inverts `IsoDate` on valid dates |
| Types.IsoDateRoundTrip | types.ts:37 | parsing the `YYYY-MM-DD` form of a valid date gives the date back |
| Types.IsoDateInjective | types.ts:37 | two valid dates have the same `YYYY-MM-DD` form iff they are equal |
| Sorting.SortDescIsSorted | App.tsx:16 | the comparator sort returns its input in non-increasing key order |
| Sorting.SortDesc | App.tsx:16 | the sort keeps every element exactly as often as it occurs |
| Sorting.SortDescIsPermutation | App.tsx:16 | the sort keeps exactly the input's elements: one is in the output iff it is in the input |
| Sorting.SortDescIsStable | App.tsx:30 | for every key, the elements with that key keep their input order |
| Sorting.HeadOfKeyComesFirst | App.tsx:30 | the element that heads its key group, occurring once in it, comes before every other element with that key |
| Sorting.SubsequenceOfSorted | App.tsx:35 | dropping elements from a sorted list leaves it sorted |
| Analysis.InRange | components/ScreenAnalysis.tsx:44-55 | the per-record range test; a custom window holds a record only when its start is not after its end |
| Analysis.FilterByRange | components/ScreenAnalysis.tsx:41-57 | a record is in the filtered list iff it is in the input and in range; the result is no longer than the input |
| Analysis.FilterIsSubsequence | components/ScreenAnalysis.tsx:43-56 | the filtered list is a subsequence of the input: same relative order, nothing added or changed |
| Analysis.FilterCounts | components/ScreenAnalysis.tsx:43-56 | each in-range record is kept as often as it occurs, each other record is dropped |
| Analysis.FilterMonth | components/ScreenAnalysis.tsx:45-46 | with range month, a record is kept iff its month and year equal today's |
| Analysis.FilterYear | components/ScreenAnalysis.tsx:47-48 | with range year, a record is kept iff its year equals today's |
| Analysis.FilterCustom | components/ScreenAnalysis.tsx:49-54 | with range custom, a record is kept iff start <= date <= end, both ends inclusive |
| Analysis.FilterCustomReversedIsEmpty | components/ScreenAnalysis.tsx:50-54 | a custom window whose start is after its end keeps nothing |
| Analysis.MonthBoundaries | components/ScreenAnalysis.tsx:45-46 | the first and last day of the current month are kept, the day before the month is not |
| Analysis.InitialFilter | components/ScreenAnalysis.tsx:31-35 | the initial range is month, the custom end is today, and the initial custom window is exactly month-to-date: a record in it is in the current month, and a valid-dated record of the current month on or before today is in it |
| Analysis.OfType | components/ScreenAnalysis.tsx:60-61 | the type filter keeps exactly the records of that type |
| Analysis.SumAmounts | components/ScreenAnalysis.tsx:60-61 | the amount sum of records with non-negative amounts is non-negative |
| Analysis.TotalIncome | components/ScreenAnalysis.tsx:60 | the income total is zero when no record is income; `TotalsPartition`, `TotalsAppend` and `BalanceIsNetFlow` relate it to the other sums |
| Analysis.TotalExpense | components/ScreenAnalysis.tsx:61 | the expense total is zero when no record is an expense; `BreakdownSum` equates it with the breakdown's total |
| Analysis.Balance | components/ScreenAnalysis.tsx:62 | income total minus expense total, a definition with no contract of its own; `BalanceIsNetFlow` proves it equals the record-by-record signed sum |
| Analysis.TotalsAppend | components/ScreenAnalysis.tsx:60-61 | the income and expense totals of a concatenation are the sums of the parts' totals |
| Analysis.TotalsPartition | components/ScreenAnalysis.tsx:60-61 | income total plus expense total is the sum of all amounts: each record counts once |
| Analysis.BalanceIsNetFlow | components/ScreenAnalysis.tsx:62 | the balance equals the record-by-record sum of +amount for income and -amount for expense |
| Analysis.TotalsOfEmpty | components/ScreenAnalysis.tsx:60-62 | an empty list gives zero totals and a zero balance |
| Analysis.TotalsNonNegative | components/ScreenAnalysis.tsx:60-61 | with non-negative amounts both totals are non-negative |
| Analysis.ExpenseBreakdown | components/ScreenAnalysis.tsx:65-71 | the loop over the expense records followed by the sort yields `Breakdown` of the filtered list |
| Analysis.ValueOf | components/ScreenAnalysis.tsx:68 | the Map lookup with its 0 default: a name with no entry reads as 0 |
| Analysis.Bump | components/ScreenAnalysis.tsx:68 | `map.set` on the insertion-ordered entry list, a definition with no contract of its own; `BumpNames`, `BumpValue` and `BumpSum` state its effect |
| Analysis.BumpNames | components/ScreenAnalysis.tsx:68 | `map.set` keeps an existing key in place and appends a new key at the end |
| Analysis.BumpValue | components/ScreenAnalysis.tsx:68 | after `map.set(n, get(n) + a)` the value under n grows by a and other values stay |
| Analysis.BumpSum | components/ScreenAnalysis.tsx:68 | each update raises the sum of the entry values by the record's amount |
| Analysis.Group | components/ScreenAnalysis.tsx:66-69 | the Map after the `forEach`, a definition with no contract of its own; `GroupNames`, `GroupValues` and `GroupSum` state what it holds |
| Analysis.GroupNames | components/ScreenAnalysis.tsx:66-69 | the Map's keys are the expense categories in order of first appearance, each once |
| Analysis.GroupValues | components/ScreenAnalysis.tsx:66-69 | the Map's value for a category is the sum of that category's expense amounts |
| Analysis.GroupSum | components/ScreenAnalysis.tsx:66-69 | the Map's values add up to the records' amount sum |
| Analysis.Breakdown | components/ScreenAnalysis.tsx:65-70 | the chart data is sorted by value, descending, and holds exactly the Map's entries |
| Analysis.BreakdownNames | components/ScreenAnalysis.tsx:66-70 | one entry per distinct expense category present, names distinct; a name appears iff some expense record has it, so income never contributes |
| Analysis.BreakdownValues | components/ScreenAnalysis.tsx:66-70 | every entry's value is the sum of its category's expense amounts |
| Analysis.BreakdownSum | components/ScreenAnalysis.tsx:66-70 | the entry values add up to the expense total |
| Analysis.BreakdownOrder | components/ScreenAnalysis.tsx:66-70 | entries are non-increasing by value; entries with equal values keep the Map's first-appearance order |
| Analysis.BreakdownOfEmpty | components/ScreenAnalysis.tsx:65-71 | an empty list has an empty breakdown |
| Analysis.RangeName | components/ScreenAnalysis.tsx:75 | the word naming each range, a definition with no contract of its own; `ContextLabel` states the labels it yields |
| Analysis.ContextLabel | components/ScreenAnalysis.tsx:75 | the label is exactly "Current month" for month and "Current year" for year; for custom it is a 29-character "From S to E" |
| Analysis.ContextLabelNamesWindow | components/ScreenAnalysis.tsx:75 | on valid dates S parses back to the window's start and E to its end, so the label names the window in order |
| Analysis.ContextLabelIdentifiesFilter | components/ScreenAnalysis.tsx:75 | two filters get the same label iff they have the same range and, for custom, the same window |
| Store.DateKey | App.tsx:16 | the sort key YYYYMMDD, a definition with no contract of its own; `DateKeyIsCalendarOrder` proves it orders as the dates do |
| Store.TxKey | App.tsx:16 | the comparator's key of a record, its date's key, a definition with no contract of its own |
| Store.DateKeyIsCalendarOrder | App.tsx:16 | on valid dates the sort key orders as calendar order and is equal only for equal dates |
| Store.SortedByKeyIsNewestFirst | App.tsx:16 | a key-sorted list of valid-dated records runs from latest date to earliest |
| Store.NewTransaction | App.tsx:25-29 | the new record keeps the submitted amount, date, category, type and note and takes the given id and timestamp |
| Store.RemoveId | App.tsx:35 | a record survives the delete filter iff it was present and has another id |
| Store.TransactionStore.Valid | App.tsx:16 | the store invariant: the list is sorted newest first; every state-changing method keeps it |
| Store.TransactionStore.constructor | App.tsx:10 | the store starts empty and sorted |
| Store.TransactionStore.Load | App.tsx:13-17 | the list becomes the loaded list sorted by date, newest first |
| Store.TransactionStore.Add | App.tsx:24-31 | the list becomes the sort of the new record prepended to the old list; it stays sorted |
| Store.TransactionStore.Delete | App.tsx:33-37 | a confirmed delete filters out the id, an unconfirmed one changes nothing; the list stays sorted |
| Store.AddResult | App.tsx:24-30 | after an add the list is one longer, holds the new (fresh) record and every old record as often as before, and is sorted |
| Store.AddPutsNewFirstAmongSameDate | App.tsx:30 | the new record comes before every older record with the same date |
| Store.RemoveIdCounts | App.tsx:35 | a delete removes exactly the records with that id and keeps every other as often as before |
| Store.RemoveIdIsSubsequence | App.tsx:35 | the kept records stay in their relative order |
| Store.RemoveIdKeepsSorted | App.tsx:35 | a delete keeps a sorted list sorted |
| EntryForm.DefaultCategory | components/ScreenAdd.tsx:20-23 | the default is the Food & Dining member for expense and the Salary member for income |
| EntryForm.CategoryOptions | components/ScreenAdd.tsx:146-153 | the select lists 17 expense or 8 income options |
| EntryForm.CategoryOptionsAreTheTypesLabels | components/ScreenAdd.tsx:146-153 | a string is an option iff it is a label of the set matching the type |
| EntryForm.AcceptsAmount | components/ScreenAdd.tsx:27 | the negated submit guard: a non-empty amount that `Number` reads as a number, a definition with no contract of its own; `Submit` states both outcomes through it |
| EntryForm.AddForm.Valid | components/ScreenAdd.tsx:141-154 | the form invariant: the selected category is one the select offers for the selected type; every handler keeps it |
| EntryForm.AddForm.constructor | components/ScreenAdd.tsx:13-17 | the form starts as expense, "Food & Dining", empty amount and note, today's date |
| EntryForm.AddForm.ChangeType | components/ScreenAdd.tsx:20-23 | switching type sets the type and its default category and leaves amount, date and note |
| EntryForm.AddForm.EditAmount | components/ScreenAdd.tsx:107 | the amount input replaces the amount only, keeping the form invariant |
| EntryForm.AddForm.EditDate | components/ScreenAdd.tsx:128 | the date input replaces the date only, keeping the form invariant |
| EntryForm.AddForm.SelectCategory | components/ScreenAdd.tsx:141-154 | choosing a listed option replaces the category only, keeping it in the type's set |
| EntryForm.AddForm.EditNote | components/ScreenAdd.tsx:169 | the note input replaces the note only, keeping the form invariant |
| EntryForm.AddForm.Submit | components/ScreenAdd.tsx:25-40 | an empty or NaN amount emits nothing and changes nothing; otherwise one record of the parsed amount and the current date, category, type and note is emitted, and amount and note reset while date, type and category stay |
| EntryForm.CategoryStyle | components/ScreenAdd.tsx:43-61 | the tint `getCategoryStyles` picks, a definition with no contract of its own; `IncomeIsGreen`, `ExpenseGrayIffUnlisted`, `StyleOfExpenseLabel` and `ListedTintsDistinct` state its choices |
| EntryForm.TintClasses | components/ScreenAdd.tsx:44-59 | the class string of each tint, a definition with no contract of its own; `TintClassesDistinct` proves it injective |
| EntryForm.IncomeIsGreen | components/ScreenAdd.tsx:44 | an income record is green whatever its category |
| EntryForm.ExpenseGrayIffUnlisted | components/ScreenAdd.tsx:46-59 | an expense is gray iff its category is not one of the twelve listed labels (so "Personal Care" and "Others" are gray), and never green |
| EntryForm.StyleOfExpenseLabel | components/ScreenAdd.tsx:46-59 | the string switch gives each expense label the tint of its enum member |
| EntryForm.ListedTintsDistinct | components/ScreenAdd.tsx:46-59 | the twelve listed expense categories get twelve different tints |
| EntryForm.TintClassesDistinct | components/ScreenAdd.tsx:44-59 | different tints have different class strings |
| EntryForm.Recent | components/ScreenAdd.tsx:193 | the recent list is the first min(5, n) transactions in the store's order |

## Left out

- Rendering is not modelled: JSX, the Tailwind classes beyond those returned by the tint choice, the recharts pie and its colours, the icons, the navigation bar and the "No transactions yet." placeholder. None of it computes bookkeeping.
- The insight request (`services/geminiService.ts`) is not part of this model. It is a network call with a prompt template and fixed fallback strings. The model does not capture its short-circuit when no API key is set, nor the loading flag around it (components/ScreenAnalysis.tsx:73-79). Only the context label passed to it is modelled.
- The storage service (`services/storageService`) is I/O and is not part of this model. This includes serialization and the save-on-change effect (App.tsx:20-22). Load takes the loaded list as an input.
- The range buttons and the custom start/end inputs of the analysis screen (components/ScreenAnalysis.tsx:108-141) are not modelled. Each only swaps one field of the filter state. The filter itself takes the filter state as a parameter.
- Floating point is not modelled: amounts are integers, and `toFixed` display is left out.
- EntryForm.AddForm.Submit: one abstract `toNumber` stands for both `Number` (the NaN check) and `parseFloat` (the stored value). The cases where the two parse the same string differently are not captured.
- JavaScript `Date` behaviour is abstracted: dates are calendar triples. `new Date("YYYY-MM-DD")` is UTC midnight (components/ScreenAnalysis.tsx:44), while `getMonth` and `getFullYear` (lines 46, 48) read local time. How a record is read therefore depends on the time-zone offset, not on the hour. West of UTC, every record dated the 1st of a month counts in the previous month under the month range, and every 1 January record counts in the previous year under the year range, at any time of day. East of UTC a record never shifts. The custom window (lines 50-54) applies `setHours` to both ends, so it agrees with calendar-date comparison in every zone. Invalid date strings compare as NaN. The model leaves out the west-of-UTC shift and invalid strings.
- Analysis.InitialFilter: the source's initial `customStart` is local midnight of the 1st printed as a UTC date (components/ScreenAnalysis.tsx:33); `customEnd` (line 34) and the form's default date (components/ScreenAdd.tsx:15) are UTC dates too. East of UTC, the start is the previous month's last day at any hour, and the end and the form date can differ from the local date. The model takes the local calendar dates, so its claim that the initial window lies inside the current month holds for the model only.
- Store.DateKey: the model orders by the number YYYYMMDD, not by the `getTime()` milliseconds. The two agree in order only on valid dates.
- Types.IsoDate: the `YYYY-MM-DD` form is only exact for years up to 9999. Analysis.ContextLabelIdentifiesFilter is therefore stated for valid dates only.
- Store.TransactionStore.Add: the fresh id is a precondition of the caller-supplied parameter, standing for `crypto.randomUUID()`. Ids of a loaded list are not checked for uniqueness, as the source does not check them.
- EntryForm.AddForm.SelectCategory: it requires the chosen value to be one of the listed options, because the select can only produce those.
