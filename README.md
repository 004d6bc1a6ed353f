# MyFinance business rules in Dafny

MyFinance is a browser personal-finance app. It keeps transactions, credit
cards and goals in local storage. Three pages compute figures from them:

- the dashboard and transactions page (`js/app.js`);
- the reports page (`js/relatorios.js`);
- the backup and statistics page (`js/reports.js`).

This project models the rules those pages compute and proves what they
promise:

- month and period filters;
- per-category and per-month outcome totals with the credit-card spending
  folded in;
- the top-5 lists;
- goal progress on the dashboard and in the report comparison;
- the add / subtract / reset balance operations;
- reading the stored state, with the `budgets` to `goals` alias;
- importing a backup by merging with renumbered ids;
- the CSV export rows;
- the `#RRGGBB` colour parser.

Conventions of the model:

- **Money** is integer cents.
- **Percentages** are exact `real`s, computed only under the `target > 0`
  guard.
- **Dates** are `(year, month 0..11, day)` at day granularity. The JS
  month arithmetic `new Date(y, m - k, 1)` is arithmetic on the month index
  `year * 12 + month`.
- **The clock** is passed in as `today`.
- **Local storage and imported files** are already-parsed values (`Stored`).
  Each key is absent, a non-array or an array.
- **A JS dictionary** built by `forEach` is an insertion-ordered table of
  distinct keys (`CategoryTable.Table`). `sort((a, b) => b - a)` is a
  stable sort by total, descending.

Modules, one per file:

- `Calendar` covers dates, month indices and month bounds.
- `Records` holds the records, the card sums and the stored blob.
- `Selection` holds filter criteria, order-preserving filtering, and
  totals and counts of selected transactions.
- `TransactionFilters` covers the transactions page.
- `GoalProgress` covers the dashboard goal calculator and the balance
  operations.
- `AppState` covers the dashboard's state, with in-place updates in a
  class.
- `CategoryTable` holds category dictionaries, their `forEach` loops and
  the top-N selection.
- `Dashboard` covers the summary, the category chart and the card
  figures.
- `PeriodFilter` covers the report period filter.
- `ReportView` covers the rest of the reports page.
- `Backup` covers the backup page.

## Model

| member | source | states |
|---|---|---|
| Calendar.DaysInMonth | js/relatorios.js:40-44 | `new Date(y, m + 1, 0)`: a month has 28 to 31 days, and February has 29 exactly in leap years |
| Calendar.FirstDayOfMonth | js/relatorios.js:46-48 | `new Date(y, m - k, 1)` for any month index: a real date, day 1, in exactly that month (underflow into earlier years included) |
| Calendar.LastDayOfMonth | js/relatorios.js:41-43 | the day-0-of-next-month date is a real date, the last day of exactly that month |
| Calendar.MonthIndexOrder | js/app.js:52-55 | comparing month indices is comparing (year, month) lexicographically, and equal indices mean same year and month |
| Calendar.OnOrAfterFirstDay | js/relatorios.js:52-68 | a real date is on or after the first day of month `idx` iff its month index is at least `idx` |
| Calendar.OnOrBeforeLastDay | js/relatorios.js:46-50 | a real date is on or before the last day of month `idx` iff its month index is at most `idx` |
| Calendar.WithinMonth | js/relatorios.js:40-50 | a real date lies between the first and last day of month `idx` iff it is in that month |
| Records.CardsInUseFacts | js/relatorios.js:196-198 | some card has `used > 0` iff the count of such cards is positive iff the sum of positive `used` is positive; a positive `used` total implies a card in use |
| Records.NonPositiveTotal | js/reports.js:437-443 | with no card in use the `used` total is not positive |
| Selection.Keep | js/app.js:81-120 | `filter` by a list of criteria: the result is an order-preserving subsequence holding exactly the inputs that meet every criterion |
| Selection.KeepCounts | js/app.js:104-118 | a filter keeps every copy of a transaction that meets its conditions and no copy of one that does not |
| Selection.KeepNothing | js/relatorios.js:29 | filtering by no criteria returns the input unchanged |
| Selection.KeepThenKeep | js/app.js:88-118 | filtering step by step (`filtered = filtered.filter(...)`) equals one filter by all criteria |
| Selection.MeetsAllSnoc | js/app.js:88-118 | meeting the criteria plus one more is meeting both |
| Selection.MeetsSingle | js/relatorios.js:34-75 | meeting a one-criterion list is meeting that criterion |
| Selection.OutcomeCategories | js/app.js:486-494 | a category is a key of an outcome dictionary iff some outcome has it |
| Selection.CategoryTotals | js/app.js:486-494 | a category with no outcome has total and count 0; a category present has count at least 1 |
| Selection.StepTotals | js/reports.js:425-435 | one more `forEach` step adds the element's amount and 1 to the running sum and count exactly when it is selected |
| Selection.TotalOfNothing | js/reports.js:268-276 | a selector that picks nothing sums to 0 |
| Selection.TotalSplit | js/relatorios.js:132-148 | the total of a selector that is the disjoint union of two others is the sum of theirs |
| Selection.KeepAgree | js/relatorios.js:34-75 | two criteria lists that agree on every element filter identically |
| Selection.TotalSnoc | js/relatorios.js:132-148 | appending one transaction adds its amount exactly when the selector picks it |
| Selection.TotalOfKeep | js/relatorios.js:132-148 | summing a selection of a filtered list equals summing the combined selection of the whole list |
| TransactionFilters.CurrentMonthTransactions | js/app.js:58-63 | order-preserving subsequence holding exactly the transactions of today's month and year |
| TransactionFilters.FilteredTransactions | js/app.js:66-71 | month `'all'` returns the input; otherwise an order-preserving subsequence of exactly the transactions in that month and year |
| TransactionFilters.FilterByDates | js/app.js:85-102 | the date stage keeps exactly the transactions matching month and year, year only when the month is `'all'`, all when both are `'all'`; a chosen month with year `'all'` matches nothing |
| TransactionFilters.Narrow | js/app.js:104-118 | one more `filter` step keeps exactly the listed transactions that meet the new condition, and stays the whole list filtered by every condition so far |
| TransactionFilters.TransactionsForFilter | js/app.js:74-121 | order-preserving subsequence holding every copy of each transaction that matches dates, name search, type and category, and nothing else |
| TransactionFilters.InsertDescending | js/app.js:137-138 | inserting a month into a strictly descending list keeps it strictly descending and adds exactly that month |
| TransactionFilters.SortDescending | js/app.js:137-138 | the sort yields a strictly descending list of exactly the given months |
| TransactionFilters.AvailableMonths | js/app.js:124-139 | today's month and every transaction month, each once, most recent first |
| GoalProgress.DashboardGoalType | js/app.js:856 | a missing type is savings; `expense_limit` is recognised exactly; unknown strings are exactly the unrecognised ones |
| GoalProgress.Percent | js/app.js:871 | `target > 0 ? current / target * 100 : 0` exactly; at least 100 iff the target is positive and reached |
| GoalProgress.PercentAboveHundred | js/app.js:871 | a current amount past a positive target gives a percentage strictly above 100 |
| GoalProgress.CalculateGoalProgress | js/app.js:845-975 | expense limits track this month's category outcomes plus all card `used` for the card category, with no add button; every other type uses `saved` or 0 with the add button; percent guarded; status by type and by reaching the target; message by type: overspent or may-spend for limits, otherwise the amount still missing below 100 and, at 100 or more, the saved amount, the invested amount with the goal's name, debt cleared or goal completed |
| GoalProgress.ExpenseLimitIgnoresSaved | js/app.js:860-886 | an expense-limit goal's progress does not depend on `saved` |
| GoalProgress.SavedGoalIgnoresTransactions | js/app.js:889-971 | a non-expense-limit goal's progress does not depend on transactions, cards or date |
| GoalProgress.ApplyBalanceOp | js/app.js:1312-1344 | add raises `saved` by v when v > 0; subtract floors `saved - v` at 0 when v > 0; reset sets 0; a non-positive v changes nothing; nothing but `saved` changes |
| GoalProgress.BalanceStaysNonNegative | js/app.js:1312-1344 | from a non-negative balance every operation keeps it non-negative |
| GoalProgress.SubtractUndoesAdd | js/app.js:1312-1344 | adding then subtracting the same positive value restores the balance |
| GoalProgress.BalanceOpMovesProgress | js/app.js:1312-1344 | adding v moves a saved-based goal's current by v; no operation moves an expense-limit goal's progress |
| GoalProgress.ExpenseLimitExample | js/app.js:860-886 | 300 + 250 spent against a 500 limit: 110 %, overspent by 50, "Limite ultrapassado!" |
| GoalProgress.SavingsReachedExample | js/app.js:889-907 | saved equal to the target gives 100 % and "Meta atingida!" |
| AppState.LoadState | js/app.js:5-26 | nothing stored or unparsable gives empty lists; otherwise each key if an array, `goals` falling back to `budgets` |
| ReportView.ReportState | js/relatorios.js:8-23 | the reports page reads the stored blob exactly as the dashboard does |
| AppState.SaveState | js/app.js:30-32 | the saved object has every list and no `budgets` key |
| AppState.LoadAfterSave | js/app.js:5-32 | loading what was saved gives the state back |
| AppState.BudgetsAlias | js/app.js:19 | an old object with only `budgets` loads them as goals |
| AppState.FinanceState.constructor | js/app.js:28 | the state starts as the loaded snapshot |
| AppState.FinanceState.AddTransaction | js/app.js:1365 | the transaction is appended; cards and goals unchanged |
| AppState.FinanceState.AddToGoal | js/app.js:1335-1344 | goal i becomes the add operation's result, others and the other lists unchanged; non-negative balances stay so |
| AppState.FinanceState.SubtractFromGoal | js/app.js:1312-1319 | goal i becomes the floored subtraction's result; its balance is non-negative after a positive subtraction; others unchanged |
| AppState.FinanceState.ResetGoal | js/app.js:1322-1332 | goal i's balance becomes 0; everything else unchanged |
| CategoryTable.IndexOf | js/app.js:490-492 | the position of a key, or -1 exactly when it is not a key |
| CategoryTable.Credit | js/reports.js:429-433 | `obj[c] = (obj[c] \|\| 0) + amount`, counting n: c becomes a key; only c's total and count grow, by amount and n; keys stay distinct; the sum of totals grows by amount |
| CategoryTable.SetTotal | js/reports.js:362-365 | `obj[c] = amount`: c becomes a key with exactly that total; other totals unchanged |
| CategoryTable.UpdateInPlace | js/reports.js:432-433 | updating an existing key keeps keys, positions and distinctness, and moves the sum by the change |
| CategoryTable.AppendNew | js/reports.js:429-431 | adding a new key extends the keys by it, keeps distinctness and adds its total to the sum |
| CategoryTable.EntryLookup | js/reports.js:451-459 | in a table of distinct keys, each row is what lookup by its key finds |
| CategoryTable.ByCategory | js/app.js:486-494 | the outcome dictionary: keys are exactly the outcome categories, each total and count is that category's outcome sum and count, and the totals add up to all outcomes |
| CategoryTable.ByCategoryCounts | js/reports.js:458 | every row of an outcome dictionary counts at least one transaction |
| CategoryTable.WithCards | js/app.js:497-504 | folding in cards with `used > 0` adds their sum to the card category only, making it a key iff some card is in use |
| CategoryTable.AccumulateOutcomes | js/app.js:486-494 | the `forEach` loop builds exactly the outcome dictionary |
| CategoryTable.AccumulateCards | js/app.js:497-504 | the card `forEach` loop builds exactly the card-folded dictionary |
| CategoryTable.InsertByTotal | js/relatorios.js:171-172 | inserting keeps the table non-increasing by total and adds exactly that entry |
| CategoryTable.SortByTotal | js/relatorios.js:171-172 | the result is non-increasing by total and a permutation of the input |
| CategoryTable.PrefixDominates | js/relatorios.js:171-173 | in a non-increasing table an entry outside the first k totals no more than each entry inside |
| CategoryTable.TopEntries | js/relatorios.js:171-173 | `sort(desc).slice(0, n)`: min(n, size) entries, non-increasing, a sub-multiset (everything when size ≤ n), and nothing left out exceeds anything kept |
| CategoryTable.TopEntriesShowTotals | js/relatorios.js:171-178 | each kept entry shows its category's total |
| CategoryTable.TopEntriesLeaveOutSmaller | js/relatorios.js:171-178 | each category is kept, or n entries are kept that all total at least as much |
| Dashboard.MonthSummary | js/app.js:250-267 | income and outcome of today's month (card `used` added to outcome), balance is their difference, outcome percentage guarded by income > 0 and at least 100 iff the balance is not positive |
| Dashboard.CategoryExpenses | js/app.js:486-504 | this month's outcome dictionary with positive card `used` added to the card category; keys, per-category totals and the sum stated |
| Dashboard.PositiveCardUsedIsTotal | js/app.js:497-504 | with no negative `used`, the chart's `used > 0` sum equals the summary's `used \|\| 0` sum |
| Dashboard.ChartTotalIsSummaryOutcome | js/app.js:250-267 | with no negative `used`, the chart's categories add up to the summary's total outcome |
| Dashboard.RoundedPercent | js/app.js:623 | `Math.round(used / limit * 100)` for a positive limit, rounding halves up |
| Dashboard.RoundedPercentBounds | js/app.js:623 | non-negative use rounds to a non-negative percent; use at or over the limit rounds to at least 100 |
| Dashboard.CardNumbers | js/app.js:620-624 | used is `used \|\| 0`; available + used = limit; percent at most 100, 0 when the limit is not positive, 100 at or over the limit, else the rounded ratio |
| Dashboard.NoLimitCardExample | js/app.js:621-624 | a card with limit 0 shows negative available and 0 % |
| Dashboard.RoundingExample | js/app.js:623 | 33.333 % rounds to 33 and 66.667 % to 67 |
| PeriodFilter.ParsePeriod | js/relatorios.js:39-72 | every option value reads back to its name |
| PeriodFilter.ParseName | js/relatorios.js:39-72 | every period with a proper name parses back to itself |
| PeriodFilter.PeriodCriteria | js/relatorios.js:39-72 | at most one range test; none exactly for `all` and unknown values |
| PeriodFilter.CriteriaMeanPeriod | js/relatorios.js:39-68 | for a real date each range test is the month-index description of its period |
| PeriodFilter.FilterTransactionsByPeriod | js/relatorios.js:28-76 | `all` and unknown periods return the input; always an order-preserving subsequence; a real-dated transaction is kept iff it is in the period |
| PeriodFilter.LastMonthAcrossYearExample | js/relatorios.js:46-50 | in January, last month is December of the year before |
| PeriodFilter.LastThreeMonthsExample | js/relatorios.js:52-56 | on 15 March the last three months start on 1 January |
| ReportView.Last6MonthsData | js/relatorios.js:127-149 | six months, oldest first, the k-th being today's minus (5 - k), each with its outcome total |
| ReportView.SeriesAddsUp | js/relatorios.js:132-148 | consecutive monthly totals add up to the outcome total of their span |
| ReportView.SixMonthsMatchPeriod | js/relatorios.js:52-62 | with real dates up to today, the six bars add up to the "last 6 months" period's outcome total |
| ReportView.LastSixMonthsTotal | js/relatorios.js:58-62 | the "last 6 months" outcome total is the outcome total of the six month indices ending today's |
| ReportView.InLastSixMonths | js/relatorios.js:58-62 | for a real date up to today, passing the range test as an outcome is being an outcome in those six months |
| ReportView.ReportCategoryTotals | js/relatorios.js:152-169 | the filtered outcome dictionary, with positive card `used` added to the card category only for `all` and `current-month` |
| ReportView.TopCategories | js/relatorios.js:152-179 | at most 5 entries, non-increasing, each with its category's total, and any category left out totals no more than all 5 kept |
| ReportView.CreditedSummary | js/relatorios.js:182-209 | distinct keys; totals add up to the filtered outcomes plus the card sum when it is folded in |
| ReportView.CategorySummary | js/relatorios.js:182-209 | `totalExpense` is the filtered outcome sum without cards; per-category totals and counts; folding cards in adds the `used` sum to the card total and exactly 1 to its count |
| ReportView.SummarySharesExceedWhole | js/relatorios.js:196-206 | when a positive card sum is folded in, the rows add up to more than `totalExpense`, so their percentages sum past 100 |
| ReportView.ReportGoalCurrent | js/relatorios.js:471-490 | expense limit: category outcomes plus card sum when allowed; savings: category income minus outcome; investment and debt payment: category outcomes; any other type: 0 |
| ReportView.TypeLabel | js/relatorios.js:493-495 | one of the four labels; "Pagamento" exactly for types other than expense_limit, savings and investment |
| ReportView.CompareGoal | js/relatorios.js:468-505 | name, target, current and label as above; percent guarded by amount > 0; "Concluída" iff percent ≥ 100 iff amount > 0 and current ≥ amount |
| ReportView.UnknownTypeNeverCompletes | js/relatorios.js:471-490 | a goal of unknown type that the dashboard shows as reached is "Em progresso" in the report |
| ReportView.CurrentMonthPeriodIsDashboardMonth | js/relatorios.js:40-44 | for real dates, the `current-month` period is the dashboard's current-month list |
| ReportView.ReportMatchesDashboard | js/relatorios.js:471-476 | for an expense limit under `current-month`, the report's current equals the dashboard's |
| ReportView.DigitValue | js/relatorios.js:775-777 | `parseInt(digit, 16)` lies in 0..15 |
| ReportView.HexBody | js/relatorios.js:773 | the optional leading `#` is stripped and nothing else |
| ReportView.PairValue | js/relatorios.js:775-777 | a two-digit hex pair is a byte |
| ReportView.HexToRgb | js/relatorios.js:772-779 | components are bytes; anything but six hex digits after an optional `#` gives (219, 39, 119) |
| ReportView.HexChar | js/relatorios.js:775-777 | the lower-case digit written for a value parses back to it |
| ReportView.ToHex | js/relatorios.js:772-779 | a colour's `#rrggbb` text is a valid hex colour |
| ReportView.HexRoundTrip | js/relatorios.js:772-779 | parsing the written text of a colour gives the colour back |
| ReportView.LowerHex | js/relatorios.js:774 | case-folding a digit keeps its value (the `i` flag) |
| ReportView.HexParseThenWrite | js/relatorios.js:772-779 | writing a parsed colour gives its text lower-cased with `#` |
| ReportView.HexCharOfDigit | js/relatorios.js:774 | the digit written for a parsed digit is its lower-case form |
| ReportView.DigitsOfPair | js/relatorios.js:775-777 | a pair's value splits into its two digits |
| ReportView.HashIsOptional | js/relatorios.js:773 | with or without one leading `#` the parse is the same |
| ReportView.DefaultPrimaryColour | js/relatorios.js:778 | the default colour is the parse of `#db2777` |
| Backup.GetStateAsWritten | js/reports.js:20-41 | as written: empty lists when nothing parses, otherwise `transactions`, `cards` and `budgets` if arrays; `goals` is not read |
| Backup.GetStateAsWrittenDropsGoals | js/reports.js:32-34 | whatever the dashboard saved, the page reads no budgets |
| Backup.GetState | js/reports.js:20-41 | corrected: the lists the dashboard loads, goals included, agreeing with the as-written reader when there is no `goals` array |
| Backup.GetStateAfterSave | js/reports.js:20-41 | what the dashboard saved reads back whole |
| Backup.SetState | js/reports.js:43-45 | the object written has no `goals` key |
| Backup.LoadAfterSetState | js/reports.js:43-45 | the dashboard loads what this page wrote, budgets as goals |
| Backup.MaxOrZero | js/reports.js:146-148 | `Math.max(0, ...ids)`: at least 0, at least every id, and 0 or some id |
| Backup.TransactionIds | js/reports.js:146 | the ids in order |
| Backup.AppendTransactionsFresh | js/reports.js:151-154 | existing transactions kept, imported ones appended in order changed only in id, new ids positive, increasing and above every existing id |
| Backup.AppendCardsFresh | js/reports.js:157-160 | the same for cards |
| Backup.AppendGoalsFresh | js/reports.js:163-166 | the same for budgets |
| Backup.MergedState | js/reports.js:146-168 | lengths add up in each list |
| Backup.MergeTarget.constructor | js/reports.js:143 | the target starts as the read state |
| Backup.MergeTarget.AddTransactions | js/reports.js:151-154 | the loop leaves exactly the renumbered append; cards and budgets unchanged |
| Backup.MergeTarget.AddCards | js/reports.js:157-160 | the loop leaves exactly the renumbered append; other lists unchanged |
| Backup.MergeTarget.AddBudgets | js/reports.js:163-166 | the loop leaves exactly the renumbered append; other lists unchanged |
| Backup.MergeImport | js/reports.js:143-168 | the merge onto the state read: the renumbered append of all three lists written back, or nothing at the first list that is not an array |
| Backup.ImportFromFile | js/reports.js:118-170 | as written: a file lacking `transactions`, `cards` or `budgets` writes nothing; replace writes the file as is; merge starts from the as-written `getState`, so no dashboard goals, and writes the renumbered merge or, on a non-array list, nothing |
| Backup.ImportFromFileCorrected | js/reports.js:118-170 | the same import with the corrected reader: the merge starts from the lists the dashboard loads, goals included |
| Backup.MergeKeepsDashboardGoals | js/reports.js:143-168 | with the corrected reader, a merge keeps the dashboard's goals first and appends the imported budgets |
| Backup.MergeAsWrittenLosesGoals | js/reports.js:143-168 | as written, the blob the import writes when an empty backup is merged into a state with one goal loads with no goals |
| Backup.ImportLosesGoalsExample | js/reports.js:118-170 | the as-written import run on that input: one goal before, none after |
| Backup.ImportKeepsGoalsExample | js/reports.js:118-170 | the corrected import run on that input keeps the goal |
| Backup.CardRow | js/reports.js:87-91 | seven cells; used is `used \|\| 0`; available = limit − used |
| Backup.CardRowMatchesCardFace | js/reports.js:88-90 | the exported available figure equals the card's on the dashboard |
| Backup.AppendTransactionRows | js/reports.js:79-81 | keeps the lines before it and adds exactly one row per transaction, in order |
| Backup.AppendCardRows | js/reports.js:87-91 | keeps the lines before it and adds exactly one row per card, in order |
| Backup.AppendBudgetRows | js/reports.js:97-99 | keeps the lines before it and adds exactly one row per budget, in order |
| Backup.ExportCsv | js/reports.js:72-99 | heading and column lines per section, exactly one row per transaction, card and budget in order, two empty lines between sections |
| Backup.MonthsOf | js/reports.js:262 | each transaction's month index, in order |
| Backup.MinOfIsLeast | js/reports.js:264 | `Math.min` is a lower bound that occurs |
| Backup.MaxOfIsGreatest | js/reports.js:265 | `Math.max` is an upper bound that occurs |
| Backup.MinAtMostMax | js/reports.js:264-265 | the minimum is at most the maximum |
| Backup.MonthSpanBounds | js/reports.js:262-269 | every transaction's month lies between the earliest and latest month, which both occur |
| Backup.MonthTotalsAt | js/reports.js:279-287 | bucket k of the specification holds the outcome total of month first + k; with no transactions every bucket is 0 |
| Backup.EmptyMonths | js/reports.js:268-276 | one bucket per month from the earliest to the latest month, inclusive, all starting at 0 |
| Backup.AddOutcomes | js/reports.js:279-287 | starting from zero buckets, adding each outcome to its month's bucket yields every month's outcome total |
| Backup.MonthTotalsStep | js/reports.js:279-287 | one more outcome adds its amount to its own month's bucket only |
| Backup.MonthlyBuckets | js/reports.js:260-298 | no transactions, no buckets; otherwise one bucket per month from the earliest to the latest, each its month's outcome total, with the card sum added to the last when positive |
| Backup.SpanCoversAll | js/reports.js:279-287 | when every month is in the span, the span's outcomes are all outcomes |
| Backup.BucketsSumSpan | js/reports.js:268-298 | the buckets add up to the span's outcomes plus the card sum |
| Backup.BucketsAddUp | js/reports.js:260-298 | the buckets add up to every outcome plus the positive card sum: none is lost or counted twice |
| Backup.SummaryAll | js/reports.js:419-444 | outcome totals and counts per category; a positive card sum adds to the card total, and the number of cards with `used > 0` to its count; the totals add up to all outcomes plus the card sum |
| Backup.SummariseOutcomes | js/reports.js:421-434 | the loop builds exactly the outcome dictionary of the transactions, and `totalSpent` is the sum of its totals |
| Backup.CategorySummaryAll | js/reports.js:419-452 | the loops build exactly that dictionary; `totalSpent` is the sum of its totals; the rows are sorted by total, a permutation of it |
| Backup.SummaryCountsPositive | js/reports.js:458 | every row counts at least one contribution, so the average needs no fallback |
| Backup.Average | js/reports.js:458 | average × count = total when count > 0, else 0 |
| Backup.SharesOfWhole | js/reports.js:459 | the percentage column times the whole equals 100 times the rows' sum |
| Backup.SharesAddUp | js/reports.js:459 | when the totals add up to a positive `totalSpent`, the percentage column adds up to 100 |
| Backup.ChartTotals | js/reports.js:348-365 | outcome totals per category; a positive card sum replaces the card category's total |
| Backup.TopCategoriesChart | js/reports.js:348-370 | at most 5 entries, non-increasing, each its category's total, and any category left out totals no more than all 5 kept |
| Backup.ChartAndSummaryDisagree | js/reports.js:362-365 | with a positive card sum, the summary's card total exceeds the chart's by the card-category outcomes |

## Left out

- DOM rendering, modals, navigation and event wiring are UI with no rule beyond the data they read.
- Chart.js, SheetJS and jsPDF calls, including the PDF report's layout, belong to foreign libraries.
- Local storage, `FileReader`, `Blob` downloads and `location.reload` are I/O. Stored text and files are modelled as already-parsed values. Reading the clock is modelled as the `today` parameter.
- Currency and date formatting (`Intl.NumberFormat`, `toLocaleString`) is locale work. So are the pt-BR month labels of the six-month series and of the monthly chart; both series are given by month index.
- Time of day and time zones are not modelled. This includes `new Date(t.date)` being parsed as UTC in `renderMonthlyChart`, which can move a transaction dated the 1st into the previous month in zones west of UTC. Dates are calendar days.
- Floating point is not modelled. Amounts are exact cents, and percentages are exact reals rather than `toFixed`-rounded floats. Only the card percent's `Math.round` is modelled, on integers.
- The goal messages keep only the amounts they show, not their text. Icons and colour classes are left out.
- The name search compares the already trimmed, lower-cased term with the name. `toLowerCase` and `trim` are not modelled.
- JS dictionaries list integer-like keys first. The tables keep plain insertion order, which is the same for category names.
- Month keys `"YYYY-MM"` are compared as month indices. This agrees with the string order for four-digit years.
- Ids are integers. `t.id || 0` for a missing id is not modelled.
- Dashboard.CardNumbers: a card's limit is a number, as the card form always sets it. `card.limit || 0` for a missing or non-numeric limit, such as one on an imported card, is not modelled.
- Backup.ImportFromFile: the check rejects falsy fields, modelled as absent. A truthy non-array passes the check and fails at its `forEach`. The records pushed into the in-memory copy before that failure are not modelled, since nothing is written.
- Backup.ExportCsv: rows are lists of cells rather than text. Quoting, commas and number printing are not modelled.
- `renderStatistics` (js/reports.js:216-237) only displays counts.
- `renderCategorySummaryTable` (js/relatorios.js:212-262) renders the summary and is not modelled.
- js/config.js, service-worker.js and tailwind.config.js are not part of this model. They hold styling, caching and build configuration.
- The reset confirmation dialog is not modelled. `FinanceState.ResetGoal` is the confirmed reset.
- `renderGoalsComparison` is repeated in the two export paths (js/relatorios.js:667-698 and 929-948). The same `CompareGoal` models all three.

## Findings

| source | as written | input that shows it | evidently intended | confidence | as-written member | corrected member |
|---|---|---|---|---|---|---|
| js/reports.js:20-41 | `getState` reads `budgets` but not `goals`. The dashboard saves its goals under `goals` (js/app.js:10, 30-32), so a merge import writes back a state without them (js/reports.js:143-168), and the dashboard then loads only the imported budgets. `ImportFromFile` models this as written; `ImportFromFileCorrected` reads the goals. | The dashboard saved one goal `Viagem`. Importing a backup with empty `transactions`, `cards` and `budgets` by merging leaves the dashboard with no goals. | Read goals as the dashboard does (`goals`, falling back to `budgets`), so that a merge keeps them. | not executed | Backup.ImportLosesGoalsExample | Backup.MergeKeepsDashboardGoals |
