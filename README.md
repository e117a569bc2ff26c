# Spend tracker core in Dafny

This project models the core of a small spending tracker written as a React
application. The tracker keeps expenses in the browser's `localStorage`. It
has a journal page where expenses are entered, edited and deleted, and an
analytics page that totals them, filters them by a time window and groups
them for two charts and a category table. Three parts are modelled:

- **The storage adapter** (`src/services/localStorage.js`). This is class
  `Storage.LocalStore`. It has two slots, one for transactions and one for
  custom categories, and a fault mode, so that every `try`/`catch` sentinel
  (`[]`, `null`, `false`) shows up as a branch. Each method states the new
  slot contents and its return value.
- **The dashboard aggregation** (`src/pages/AnalyticsDashboard.js`). This is
  module `Analytics`:
  - the totals and the time-window filter are functions;
  - the `forEach` that builds an object keyed by date or category is the
    method `TallyLoop`, proved against the specification function `Tally`;
  - the line chart, the pie chart and the category summary are methods whose
    contracts say what each key, total, count and order means.
- **The journal page** (`src/pages/Journal.js`). This is class
  `Journal.JournalPage`. Its fields are the component's state, and there is
  one method per handler. The submit validation, the add-category guard, the
  edit form and the history order are functions with their own contracts.

Representation choices:

- **Amounts** are integers in cents.
  - `parseFloat` is `Numbers.ParseAmount`: leading whitespace, an optional
    sign, digits, and an optional fraction whose first two digits are kept.
    `None` stands for `NaN`.
  - `Number.prototype.toString` on a cent value is `Numbers.FormatCents`.
  - The round trip between the two is proved (`Numbers.FormatThenParse`).
- **Ids** come from `Date.now().toString()`. The clock reading `now` and the
  ISO timestamp are parameters.
- **Dates** are `YYYY-MM-DD` strings.
  - The start of today and of the week, which the dashboard computes with
    `new Date()`, are inputs, bundled in `Analytics.View`.
  - On such strings, the `Date` comparisons of the source agree with the
    string order `Text.LexLe`.
- **Objects used as dictionaries** become insertion-ordered association
  lists, as JavaScript orders string keys that are not array indices.
- **`Array.prototype.sort`** is stable. It is modelled by the stable
  insertion sort `Sorting.SortBy`, which is proved sorted, a permutation and
  stable.
- **No currency.** The code has no currency field, and every total is one
  plain sum of amounts (`src/pages/AnalyticsDashboard.js:50`).

## Model

| member | source | states |
|---|---|---|
| Storage.Load | src/services/localStorage.js:8-16 | a getter returns the stored list; it returns `[]` when the key is absent, when the text does not parse, or when storage throws |
| Storage.LocalStore.GetTransactions | src/services/localStorage.js:8-16 | returns `Load` of the transactions slot; with healthy storage and a stored list, returns exactly that list |
| Storage.LocalStore.SaveTransaction | src/services/localStorage.js:18-33 | with healthy storage, appends the draft stamped with id `IdFor(now)` and the timestamp, and returns that record; otherwise returns `null` and the slot is unchanged |
| Storage.LocalStore.DeleteTransaction | src/services/localStorage.js:35-45 | `ok` holds exactly when the write succeeds; on success, the slot holds the old list without the records carrying `id`; otherwise the slot is unchanged |
| Storage.LocalStore.UpdateTransaction | src/services/localStorage.js:47-61 | when a record has the id and the write succeeds, merges the patch into the first such record only and returns it; otherwise writes nothing and returns `null` |
| Storage.LocalStore.GetCustomCategories | src/services/localStorage.js:64-72 | returns `Load` of the categories slot; with healthy storage and a stored list, returns exactly that list |
| Storage.LocalStore.SaveCustomCategory | src/services/localStorage.js:74-86 | a name already stored causes no write and returns the list; a new name is appended and the new list returned when the write succeeds, and `[]` is returned when it fails |
| Storage.LocalStore.ClearAllData | src/services/localStorage.js:89-98 | fails only when storage throws; on success both keys are gone and both getters return `[]` |
| Storage.WithoutIdSpec | src/services/localStorage.js:38 | a record survives a delete exactly when it was present and its id differs; every copy of a surviving record is kept and no copy of a deleted one; the survivors keep their order |
| Storage.WithoutUnknownId | src/services/localStorage.js:38 | deleting an id that no record has leaves the list as it was |
| Storage.WithCategory | src/services/localStorage.js:77-78 | the list afterwards holds the old names and the new one; it grows by one only when the name is new; the old list is its prefix; a list without duplicates stays without them |
| Storage.WithCategoryIdempotent | src/services/localStorage.js:77-80 | adding the same category twice gives the list of adding it once |
| Storage.CategorySavedIdempotent | src/services/localStorage.js:74-86 | saving a category twice leaves the slot as saving it once; with healthy storage, the name is listed afterwards |
| Storage.EarlierIdDiffers | src/services/localStorage.js:23 | an id issued at an earlier clock reading differs from the one issued now |
| Storage.SaveKeepsIdsDistinct | src/services/localStorage.js:23 | if ids are distinct and were issued at earlier clock readings, a save at `now` keeps them distinct |
| Storage.SameMillisecondDuplicates | src/services/localStorage.js:23 | two saves at the same clock reading give two records with one id, so ids are unique only while the clock advances between saves |
| Storage.SaveThenDelete | src/services/localStorage.js:18-45 | deleting a just-saved record by its new id restores the list from before the save |
| Records.StampedIdsDistinct | src/services/localStorage.js:21-25 | records saved at different clock readings get different ids |
| Records.SameMillisecondSameId | src/services/localStorage.js:23 | records saved in the same millisecond get the same id |
| Numbers.NatStrValue | src/services/localStorage.js:23 | the decimal numeral of a clock reading denotes that reading |
| Numbers.NatStrInjective | src/services/localStorage.js:23 | different clock readings give different id strings |
| Numbers.FormatThenParse | src/pages/Journal.js:46 | `parseFloat` gives back every cent amount that `toString` printed |
| Numbers.ParseAmount | src/pages/Journal.js:46 | blank text parses to `NaN`; a numeral of digits alone parses to its value in whole units |
| Numbers.FormatCents | src/pages/Journal.js:88 | the printed amount is non-empty, starts with `-` exactly for negative amounts, and has a decimal point exactly when the amount is not whole |
| Records.Stamped | src/services/localStorage.js:21-25 | the new record's id is a numeral denoting the clock reading; it keeps the draft's fields and carries the timestamp |
| Records.Merge | src/services/localStorage.js:52 | an empty patch changes nothing; each of the six fields (id, date, category, amount, description, timestamp) takes the patch's value when the patch carries it and keeps the stored value otherwise |
| Records.MergeIdempotent | src/services/localStorage.js:52 | applying the same patch twice is applying it once |
| Records.MergePatchOf | src/pages/Journal.js:52-58 | the journal's update patch keeps the record's id and timestamp and takes the four form fields |
| Text.Trim | src/pages/Journal.js:75 | the result has no whitespace at either end, and the input is the result surrounded only by whitespace |
| Text.TrimEmptyIffBlank | src/pages/Journal.js:75 | the trimmed name is empty exactly when the input is all whitespace |
| Text.TrimIdempotent | src/pages/Journal.js:75 | trimming twice is trimming once |
| Text.LexLeTotal | src/pages/AnalyticsDashboard.js:99 | any two strings are comparable in the default sort order |
| Text.LexLeTransitive | src/pages/AnalyticsDashboard.js:99 | the default sort order is transitive |
| Text.LexLeAntisymmetric | src/pages/AnalyticsDashboard.js:99 | strings that each sort no later than the other are equal |
| Text.ReplaceMissing | src/pages/AnalyticsDashboard.js:145 | `replace` leaves a string alone when the string lacks one of the pattern's characters |
| Sorting.SortBy | src/pages/AnalyticsDashboard.js:170 | the sorted copy is ordered by the comparator and is a permutation of the input |
| Sorting.SortByStable | src/pages/AnalyticsDashboard.js:170 | elements the comparator ranks alike keep their input order |
| Analytics.TotalSplits | src/pages/AnalyticsDashboard.js:50-55 | the all-time total is the total of the transactions a test keeps plus the total of the rest, for example the selected month and the other months |
| Analytics.TotalBounds | src/pages/AnalyticsDashboard.js:50 | `totalAllTime`: zero for no transactions, non-negative when no amount is negative, and at least the number of transactions when every amount is positive |
| Analytics.TotalSelectedMonth | src/pages/AnalyticsDashboard.js:53-55 | the all-time total minus the other months' total; between zero and the all-time total when no amount is negative |
| Analytics.Filtered | src/pages/AnalyticsDashboard.js:58-82 | the window keeps exactly the transactions its test admits, every copy of each, in order; an unknown filter keeps them all |
| Analytics.MonthlyIsSelectedMonth | src/pages/AnalyticsDashboard.js:75-78 | the monthly window is the selected month, so its total is `totalSelectedMonth` |
| Analytics.DailyWithinWeekly | src/pages/AnalyticsDashboard.js:59-74 | when the week starts no later than today, the daily window is the weekly window narrowed to today onwards |
| Analytics.TallySize | src/pages/AnalyticsDashboard.js:157-166 | the object holds at most one entry per transaction, and it is empty exactly when there are no transactions |
| Analytics.DepositKeys | src/pages/AnalyticsDashboard.js:158-163 | one step of the `forEach` appends the key when it is new and leaves the keys as they were otherwise |
| Analytics.DepositSums | src/pages/AnalyticsDashboard.js:164-165 | one step adds the amount to the entries' total and one to their count |
| Analytics.TallyLoop | src/pages/AnalyticsDashboard.js:155-166 | the `forEach` builds the object that `Tally` specifies |
| Analytics.Accumulate | src/pages/AnalyticsDashboard.js:158-165 | the callback creates the key's entry when missing and adds the amount and one to it, exactly as one `Deposit` step |
| Analytics.TallyKeys | src/pages/AnalyticsDashboard.js:128 | the object's keys are the distinct keys of the transactions, in order of first appearance |
| Analytics.TallyAccounts | src/pages/AnalyticsDashboard.js:157-166 | each entry's total and count are the sum and the number of the transactions carrying its key |
| Analytics.TallySums | src/pages/AnalyticsDashboard.js:90-96 | the entries' totals add up to the total of the transactions, and their counts add up to the number of transactions |
| Analytics.TallyCountsPositive | src/pages/AnalyticsDashboard.js:158-165 | every entry counts at least one transaction |
| Analytics.LookupTally | src/pages/AnalyticsDashboard.js:100 | `groupedData[date]` is the total of that date's transactions |
| Analytics.TotalsThroughKeys | src/pages/AnalyticsDashboard.js:219 | the totals looked up through the keys add up to `filteredTotal` |
| Analytics.LexLeSorts | src/pages/AnalyticsDashboard.js:99 | the default string order is a total preorder |
| Analytics.SortedDates | src/pages/AnalyticsDashboard.js:99 | the chart's dates are strictly ascending, and they are exactly the dates in the window |
| Analytics.DateAmounts | src/pages/AnalyticsDashboard.js:100 | each chart amount is its date's total, and the amounts add up to the window's total |
| Analytics.LineChartData | src/pages/AnalyticsDashboard.js:85-100 | the window's dates appear once each, ascending, each with its total; the totals add up to the window's total |
| Analytics.PaletteRepeats | src/pages/AnalyticsDashboard.js:132-137 | the palette has 18 entries, and the first equals the seventh |
| Analytics.OpaqueKeepsPalette | src/pages/AnalyticsDashboard.js:145 | the border-colour `replace` changes no palette entry |
| Analytics.CategoryAmounts | src/pages/AnalyticsDashboard.js:121-129 | the pie labels are the distinct categories in order of first appearance, each value is its category's total, and the values add up to the window's total |
| Analytics.PieChartData | src/pages/AnalyticsDashboard.js:117-150 | labels, values and their sum are as `CategoryAmounts` states; category `i` gets palette colour `i` while the palette lasts; the first and seventh categories share a colour; borders equal backgrounds |
| Analytics.HigherTotalFirstSorts | src/pages/AnalyticsDashboard.js:170 | the comparator `b.total - a.total` orders rows by a total preorder |
| Analytics.SummaryRows | src/pages/AnalyticsDashboard.js:168-169 | one row per category of the window; each row carries its category's total and count, and the count is at least 1 |
| Analytics.SummarySums | src/pages/AnalyticsDashboard.js:153-171 | the rows' totals and counts add up to the window's; there are no rows exactly when the window is empty |
| Analytics.CategorySummary | src/pages/AnalyticsDashboard.js:153-171 | rows as `SummaryRows` and `SummarySums` state, largest total first; rows with equal totals stay in order of first appearance |
| Journal.Validate | src/pages/Journal.js:41-50 | the form is refused for a missing field exactly when date, category or amount is empty; it is refused for the amount exactly when those are filled and the amount does not parse or is not above zero; otherwise the draft carries the parsed positive amount and the form's other fields |
| Journal.EditForm | src/pages/Journal.js:85-90 | the form holds the record's date and category, an amount text that parses back to the record's amount, and the description or `""` |
| Journal.EditThenSubmit | src/pages/Journal.js:83-91 | submitting a valid record's edit form unchanged yields the record's own data; the patch leaves a record with a description as it was |
| Journal.CategoryToAdd | src/pages/Journal.js:75 | admits the trimmed name exactly when it is non-empty and not already listed |
| Journal.AddedCategoryRefused | src/pages/Journal.js:75 | once a name is added, the guard refuses it again, however it is padded |
| Journal.LaterDateFirstSorts | src/pages/Journal.js:229 | the history comparator is a total preorder |
| Journal.NewestFirst | src/pages/Journal.js:228-229 | the history is ordered by date, newest first, holds the same records, and keeps same-date records in stored order |
| Journal.JournalPage.constructor | src/pages/Journal.js:7-17 | the initial state: empty lists, a blank form with today's date, the add-category input closed, no edit mode |
| Journal.JournalPage.LoadData | src/pages/Journal.js:23-28 | the page shows the stored records, and the defaults followed by the custom categories |
| Journal.JournalPage.HandleInputChange | src/pages/Journal.js:30-36 | the named field takes the value and the other fields are unchanged |
| Journal.JournalPage.HandleSubmit | src/pages/Journal.js:38-72 | a refused form raises its alert and changes neither the page nor storage; an accepted form makes one write, an update in edit mode and a save otherwise; then the form is blank, edit mode is off and the lists are reloaded |
| Journal.JournalPage.HandleAddCategory | src/pages/Journal.js:74-81 | when the guard admits the name, it is saved, the input is cleared and closed, and the lists are reloaded; otherwise nothing changes |
| Journal.JournalPage.HandleEdit | src/pages/Journal.js:83-91 | edit mode is on for the record, and the form holds its fields |
| Journal.JournalPage.HandleDelete | src/pages/Journal.js:93-98 | a confirmed delete removes the id from storage and reloads; an unconfirmed one changes nothing |
| Journal.JournalPage.CancelEdit | src/pages/Journal.js:100-108 | edit mode is off and the form is blank |
| Journal.JournalPage.SortHistory | src/pages/Journal.js:228-229 | the `transactions` state is replaced by its newest-first order |

## Left out

- JSON serialisation is not modelled. A list read back equals the list
  written, and stored text that parses to a value other than a list is not
  modelled.
- `console.error` and `alert` are I/O. Each alert is returned as a value.
- The clock (`Date.now()`, `new Date()`) is not modelled. Its readings are
  parameters: `now`, `timestamp`, `today`, and the day and week starts in
  `Analytics.View`.
- Time zones are not modelled. The source parses a date-only string as UTC
  midnight and compares it with local midnight; the model compares calendar
  dates.
- `Analytics.Filtered`: a date string that is not `YYYY-MM-DD` is treated as
  an invalid date and never passes the daily or weekly test. Other formats
  that `Date` accepts are not modelled.
- `Journal.Validate`: amounts are whole cents. An amount whose only non-zero
  digits come after the second decimal place (`0.001`) is refused here, but
  the source accepts it. Exponents (`1e3`), `Infinity` and hexadecimal forms
  of `parseFloat` are not modelled.
- `Journal.NewestFirst`: the comparator is modelled on `YYYY-MM-DD` dates.
  With an invalid date the source's comparator returns `NaN`, and that
  ordering is not modelled.
- Strings are sequences of Unicode scalar values. JavaScript compares UTF-16
  code units, so the two orders differ only for characters outside the
  Basic Multilingual Plane.
- Object keys that look like array indices, such as a category named `"12"`,
  are enumerated first by JavaScript. The model keeps them in insertion
  order.
- `Analytics.CategorySummary`, `Analytics.PieChartData`,
  `Analytics.LineChartData`: the grouping objects start as `{}`, so a key
  that `{}` inherits from `Object.prototype` behaves differently in the
  source. Such keys include `toString`, `constructor`, `valueOf`,
  `hasOwnProperty` and `__proto__`. Custom categories are free text, so
  these names can occur. Two examples:
  - For a category named `toString`, the inherited function is truthy, so
    no entry is created and `.total += amount` writes `NaN` onto the
    prototype. The summary then has no row for that category, and its
    counts no longer add up to the window's.
  - For a category named `constructor`, the pie value becomes the string
    concatenation of the function's source text and the amounts.

  The model gives every such name its own entry, like any other key.
- `formatCurrency`, `toLocaleDateString`, the chart options, the chart
  library and the rendering are presentation and are not modelled. The same
  goes for the toggles of the add-category input and its text field.
- The default-categories data file is not part of this model. Its list is
  the `defaults` parameter of `Journal.JournalPage`.
- The navigation component and the application shell are not part of this
  model.
- Component lifecycle is not modelled. `useEffect` runs `LoadData` once
  after construction, and React's batching of state updates is not
  modelled: each handler's updates are applied in order.
- Amounts in the source are JavaScript doubles, and every `reduce` is a
  floating-point sum. The model adds whole cents exactly, so the sum facts
  (`Analytics.DateAmounts`, `Analytics.CategoryAmounts`,
  `Analytics.SummarySums`, `Analytics.TotalSplits`) hold in the source only
  up to rounding.
- `Journal.JournalPage.HandleInputChange`: an input `name` other than the
  four form fields leaves the form unchanged here. The source would add a
  field of that name, which later spreads into the saved record. Only the
  four named inputs call the handler.
