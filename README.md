# finly — a verified model of the client-side figures and list upkeep

finly is a personal-finance web app: accounts, transactions, budgets,
savings goals, reports and a feedback form, stored in a hosted database
and shown by React screens. This project models in Dafny the logic those
screens run on the client once the rows are fetched, and proves what that
logic promises. The modelled logic covers:

- account balances and the net-worth card;
- the "last updated" caption and account styles;
- budget spending per period, the budget overview and cards;
- budget validation, duplicate detection and list patching;
- the dashboard totals, recent transactions and monthly trend;
- the report totals, the per-day line chart and the expense pie;
- goal progress;
- the sidebar's active-link rule;
- the shared add/edit dialog's draft;
- the feedback form's validation and resets.

Modules, one per file:

| file | module | what it holds |
|---|---|---|
| `wrappers.dfy` | `Wrappers` | `Option` |
| `sums.dfy` | `Sums` | left-fold sums, filters and per-key sums (the `reduce`/`filter` idiom), with their algebra |
| `calendar.dfy` | `Calendar` | Gregorian dates, day ordinals, month ordinals (one per "MMM yyyy" label), weekdays |
| `text.dfy` | `Text` | decimal rendering, `padStart(2, "0")`, `trim` |
| `sorting.dfy` | `Sorting` | ordering a sequence by an integer key |
| `ledger.dfy` | `Ledger` | transaction and account rows, and the per-category expense reduce shared by the dashboard and the reports |
| `accounts.dfy` | `Accounts` | `src/components/Accounts.jsx` |
| `budgets.dfy` | `Budgets` | `src/components/Budgets.jsx`; the screen state is the class `BudgetsScreen` |
| `dashboard.dfy` | `Dashboard` | `src/components/DashboardHome.jsx`; `GetTrendData` is a method with loops, proved equal to `TrendSpec` |
| `reports.dfy` | `Reports` | `src/components/Reports.jsx`; the line chart and pie are built by loops over a mutable table |
| `goals.dfy` | `Goals` | `src/components/Goals.jsx` |
| `sidebar.dfy` | `Sidebar` | `src/components/Sidebar.jsx` |
| `edit_modal.dfy` | `EditModal` | `src/components/EditModal.jsx`; the dialog state is the class `Dialog` |
| `feedback_form.dfy` | `FeedbackForm` | `src/components/FeedbackForm.jsx`; the form state is the class `Form` |

Conventions:

- Money is an `int` in minor units. Percentages are `real`.
- A transaction's `type` is `Income`, `Expense` or any other text.
- A date is a calendar `Date`. Comparisons between dates go through its day ordinal.
- A store call (insert, update, delete) is not modelled. Its outcome, and any row it returns, is a method parameter. So are the user's confirmation and the current date `now`.

## Model

| member | source | states |
|---|---|---|
| Ledger.CategoryFoldWellFormed | src/components/DashboardHome.jsx:77-82 | the category reduce lists every category once, and has a total for exactly the listed categories |
| Ledger.CategoryFoldSums | src/components/DashboardHome.jsx:79-82 | the reduce lists exactly the categories that occur, and each total is the sum of that category's amounts |
| Ledger.CategorySpendingNames | src/components/DashboardHome.jsx:76-88 | the category breakdown names each expense category exactly once and names nothing else |
| Ledger.CategorySpendingValues | src/components/DashboardHome.jsx:76-88 | each entry's value is its category's expense sum; the values add up to the sum of all expenses |
| Calendar.InMonthIff | src/components/DashboardHome.jsx:66-67 | a date lies between startOfMonth(now) and endOfMonth(now) iff it has now's month and year |
| Text.TrimEmptyIffBlank | src/components/FeedbackForm.jsx:16 | `trim()` gives "" exactly for strings made only of white space |
| Accounts.GetAccountStyle | src/components/Accounts.jsx:17-19 | a known type gets its own table entry; any other type gets the "Other" entry |
| Accounts.LiabilityAmongOfferedTypes | src/components/Accounts.jsx:40-43 | liability iff the type is "Credit Card", "Loan" or "Liability"; among the types the forms offer only "Credit Card" is one |
| Accounts.FormatLastUpdated | src/components/Accounts.jsx:22-36 | "-" exactly for a missing date; otherwise the text starts with "Last Updated: " |
| Accounts.FormatLastUpdatedRecent | src/components/Accounts.jsx:26-32 | "Today" at 0 days and "Yesterday" at 1; the day count for under 7 days, including negative counts; "1 week ago" for 7–13 |
| Accounts.FormatLastUpdatedDate | src/components/Accounts.jsx:33-36 | from 14 days on the caption is dd-mm-yyyy and reads back to the same date |
| Accounts.BalanceSpec | src/components/Accounts.jsx:162-171 | balance = base (0 when absent) + the account's income − the account's expense; other types count for nothing |
| Accounts.BalanceIgnoresOtherAccounts | src/components/Accounts.jsx:164 | adding or removing transactions of other accounts leaves the balance unchanged |
| Accounts.NetWorthPartition | src/components/Accounts.jsx:87-96 | assets + liabilities = the sum of all balances; net worth = the sum of the balances signed by side |
| Budgets.WeeklyIsSameWeek | src/components/Budgets.jsx:37-42 | the weekly window holds exactly the dates of now's Sunday-to-Saturday week |
| Budgets.SpentForCategoryInsert | src/components/Budgets.jsx:28-47 | a transaction adds its amount iff it is an expense of that category within the period, wherever it sits in the list |
| Budgets.SpentOtherPeriod | src/components/Budgets.jsx:44 | any period other than "monthly" and "weekly" spends 0 |
| Budgets.GetOverview | src/components/Budgets.jsx:163-169 | the total budget is the sum of the budgets' amounts, the total spent the sum of each budget's spending in its own period, the remaining their difference; percentUsed is 0 for a zero total budget and otherwise satisfies percent × budget = spent × 100 |
| Budgets.OverviewRemaining | src/components/Budgets.jsx:169 | the total remaining is the sum of the budgets' own remaining amounts |
| Budgets.OverviewBarWidth | src/components/Budgets.jsx:215 | the bar width never exceeds 100 and equals percentUsed up to 100 |
| Budgets.GetBudgetCard | src/components/Budgets.jsx:225-276 | spent is the category's spending in the budget's period; remaining = amount − spent; over iff spent > amount (iff remaining < 0); percent is 0 for a zero amount and otherwise satisfies percent × amount = spent × 100; the bar is red iff over, yellow iff not over and above 75 %, green otherwise; the width is capped at 100 |
| Budgets.OverMeansPastHundred | src/components/Budgets.jsx:226-228 | for a positive amount, over iff more than 100 % used |
| Budgets.FindDuplicate | src/components/Budgets.jsx:116-121 | None iff no other budget has the form's category and period; otherwise the first such budget |
| Budgets.ReplaceById | src/components/Budgets.jsx:135-137 | same length; the edited id takes the form's category, amount and period; every other budget is unchanged |
| Budgets.RemoveByIdSpec | src/components/Budgets.jsx:158 | removal drops exactly the budgets with that id and keeps the others in order |
| Budgets.SavePreservesUniqueness | src/components/Budgets.jsx:108-151 | a save never creates a second budget for a category and period, nor a repeated id, given a fresh id from the store |
| Budgets.RemovePreservesUniqueness | src/components/Budgets.jsx:154-160 | a delete keeps both uniqueness invariants |
| Budgets.BudgetsScreen.constructor | src/components/Budgets.jsx:50-57 | the screen starts with the fetched lists, the form closed, not saving and not editing |
| Budgets.BudgetsScreen.OpenModal | src/components/Budgets.jsx:98-101 | opens the form for the given budget (None to add), changing nothing else |
| Budgets.BudgetsScreen.CloseModal | src/components/Budgets.jsx:102-105 | closes the form and forgets the edited budget, changing nothing else |
| Budgets.BudgetsScreen.HandleSave | src/components/Budgets.jsx:108-151 | invalid or duplicate forms change nothing and leave the form open; otherwise the list is patched or extended on success and the form closes either way; the loading flag ends false; uniqueness is preserved |
| Budgets.BudgetsScreen.HandleDelete | src/components/Budgets.jsx:154-160 | the list loses that id only when confirmed and the store succeeded; nothing else changes; uniqueness is preserved |
| Dashboard.TotalBalanceSplit | src/components/DashboardHome.jsx:48-51 | the total balance equals the net-worth card's assets plus liabilities |
| Dashboard.RecentTxns | src/components/DashboardHome.jsx:54 | the first min(5, n) transactions, as a prefix of the list |
| Dashboard.RecentAreNewest | src/components/DashboardHome.jsx:25 | on the newest-first list every transaction left out is no later than any shown |
| Dashboard.AccountName | src/components/DashboardHome.jsx:274 | the name of the first account with the transaction's account id, "" when there is none |
| Dashboard.RecentSign | src/components/DashboardHome.jsx:277-278 | "-" exactly for expenses, "+" for every other type |
| Dashboard.SignsAcrossScreens | src/components/DashboardHome.jsx:278 | the dashboard and the reports table agree on income and expense signs but disagree on any other type |
| Dashboard.MonthlyTotalSameMonth | src/components/DashboardHome.jsx:61-70 | the monthly total is the sum of that type's amounts dated in now's month and year |
| Dashboard.TrendMonths | src/components/DashboardHome.jsx:92-96 | "1M" gives 1 month, "3M" 3, "6M" 6 and "1Y" 12; any other range gives 6 |
| Dashboard.MonthLabels | src/components/DashboardHome.jsx:99-103 | the labels run from the oldest month to now's month, one per month |
| Dashboard.MonthRangeDistinct | src/components/DashboardHome.jsx:99-103 | no label repeats |
| Dashboard.FindBucket | src/components/DashboardHome.jsx:118 | the index of the first bucket with the label, or −1 when none has it |
| Dashboard.AddTransaction | src/components/DashboardHome.jsx:113-124 | one forEach step adds the transaction to its month's bucket and leaves every other bucket unchanged |
| Dashboard.AddTransactions | src/components/DashboardHome.jsx:113-124 | the forEach over all transactions yields the specified buckets |
| Dashboard.GetTrendData | src/components/DashboardHome.jsx:90-127 | the trend is one bucket per month of the range, each holding that month's income and expense after the start |
| Dashboard.TrendIncomeConserved | src/components/DashboardHome.jsx:113-124 | for transactions dated up to now, the buckets' incomes add up to the income after the start: none lost, none counted twice |
| Dashboard.TrendExpenseConserved | src/components/DashboardHome.jsx:113-124 | the same for expenses: for transactions dated up to now, the buckets' expenses add up to the expense after the start |
| Dashboard.TrendSkipsFirstDay | src/components/DashboardHome.jsx:116 | the start is exclusive, so a transaction on the first day of the oldest month changes no bucket |
| Dashboard.TrendOfNoTransactions | src/components/DashboardHome.jsx:106-111 | with no transactions every bucket is zero and the newest bucket is now's month |
| Reports.NormaliseRange | src/components/Reports.jsx:19-20 | the range is ordered, holds the two chosen dates, and is unchanged when already ordered |
| Reports.TotalsSpec | src/components/Reports.jsx:53-59 | total income and total expense sum only their type; net savings is the sum of the transactions' balance effects |
| Reports.AddToTable | src/components/Reports.jsx:63-70 | one forEach step: the date's row is created at zero when missing, its date then joins the key list, and the row is credited with an income or expense amount; every other row is unchanged |
| Reports.GroupByDate | src/components/Reports.jsx:62-72 | the table has one entry per transaction date, created at zero on first sight, holding that day's income and expense sums |
| Sorting.SortBy | src/components/Reports.jsx:74-76 | the result is ordered by the key and is a permutation of the input |
| Reports.BuildLineChart | src/components/Reports.jsx:62-76 | one row per distinct date, holding that day's sums, every date covered, sorted by date |
| Reports.LineChartColumns | src/components/Reports.jsx:62-76 | the income and expense columns add up to the report's totals |
| Reports.LineChartStrictlyAscending | src/components/Reports.jsx:74-76 | for valid dates the rows are strictly ascending by date |
| Reports.ReduceByCategory | src/components/Reports.jsx:79-84 | the loop's key list and totals equal the category reduce that the dashboard uses too |
| Reports.BuildPieData | src/components/Reports.jsx:79-89 | the pie equals the dashboard's category breakdown |
| Reports.PieTotalsExpense | src/components/Reports.jsx:79-89 | the pie's values add up to the report's expense total |
| Reports.AmountDisplay | src/components/Reports.jsx:302-303 | "+" exactly for income, "-" otherwise, followed by the absolute amount |
| Reports.AmountDisplayMatchesBalanceEffect | src/components/Reports.jsx:303 | for income and expense the shown value is the balance effect; other types show as money out though they move no balance |
| Goals.Saved | src/components/Goals.jsx:22 | the saved amount, 0 when the column is empty |
| Goals.Target | src/components/Goals.jsx:23 | the target is never 0: it is 1 when missing or zero |
| Goals.Remaining | src/components/Goals.jsx:25-26 | saved + remaining = target; remaining > 0 iff the goal is not reached |
| Goals.Progress | src/components/Goals.jsx:24 | progress never exceeds 100 and otherwise is saved/target × 100 |
| Goals.ProgressFullIffOver | src/components/Goals.jsx:24-26 | for a positive target the ring is full iff the goal is reached, and it is non-negative when saved is |
| Goals.RemainingText | src/components/Goals.jsx:82-84 | "Goal reached!" iff reached; otherwise a positive amount that completes the target |
| Goals.PathColor | src/components/Goals.jsx:102 | always one of the green, yellow and indigo codes |
| Goals.PathColorBands | src/components/Goals.jsx:102 | for a positive target: green iff saved ≥ target; yellow iff saved < target and saved × 100 > target × 80; indigo otherwise |
| Goals.RoundHalfUp | src/components/Goals.jsx:100 | the rounded value is within half a unit, halves going up |
| Goals.ProgressTextReadsBack | src/components/Goals.jsx:100 | the ring caption is 1–3 digits and "%", reading back to a whole percentage 0–100 within half a point of the progress |
| Goals.CategoryBadge | src/components/Goals.jsx:54-58 | a badge is shown exactly when the category is present and non-empty, and it shows the category's text |
| Goals.Icon | src/components/Goals.jsx:52 | a known category gets its icon; a missing or unknown one gets the target icon |
| Goals.IconsCoverOfferedCategories | src/components/Goals.jsx:10-19 | the categories the forms offer are exactly the icon table's keys; an unknown category looks like "Other" |
| Sidebar.ActiveFlags | src/components/Sidebar.jsx:81-84 | each link's flag is the active rule; the mobile menu (lines 178-181) applies the same rule |
| Sidebar.RootOnlyWhenExact | src/components/Sidebar.jsx:83-84 | the "/" link is active only for the pathname "/" |
| Sidebar.ExtensionActivates | src/components/Sidebar.jsx:84 | any pathname extending a non-root path activates it; the prefix has no segment boundary |
| Sidebar.NavPathsPrefixFree | src/components/Sidebar.jsx:9-17 | no path other than the root is a prefix of another menu path, and only the root has length 1 |
| Sidebar.AtMostOneActive | src/components/Sidebar.jsx:82-84 | for any pathname at most one link is active |
| EditModal.Seed | src/components/EditModal.jsx:14 | the draft is the edited row, or empty when adding |
| EditModal.Changed | src/components/EditModal.jsx:23 | the named field takes the new value; every other field is unchanged and no field is lost |
| EditModal.FieldValue | src/components/EditModal.jsx:45 | an input shows the draft's value, or "" when the field is absent |
| EditModal.ChangeShowsOnlyThatField | src/components/EditModal.jsx:63 | after a change only the changed input shows something different |
| EditModal.Title | src/components/EditModal.jsx:34 | the given title, else "Edit" for a row and "Add New" otherwise |
| EditModal.FieldLabel | src/components/EditModal.jsx:40 | the field's name, else its placeholder |
| EditModal.ButtonLabel | src/components/EditModal.jsx:88-90 | "Saving..." while saving, else the given label, else "Save" or "Add" |
| EditModal.Dialog.constructor | src/components/EditModal.jsx:14 | the draft starts from the given row |
| EditModal.Dialog.Receive | src/components/EditModal.jsx:16-18 | a change of row or open flag resets the draft from the row; otherwise the draft is kept |
| EditModal.Dialog.HandleChange | src/components/EditModal.jsx:22-24 | replaces exactly one field of the draft |
| EditModal.Dialog.HandleSubmit | src/components/EditModal.jsx:26-29 | hands the draft to the save callback unchanged |
| EditModal.Dialog.Render | src/components/EditModal.jsx:20 | nothing when closed; when open, the title, labels, values and button as above |
| FeedbackForm.TrimmedEmptyIffIncomplete | src/components/FeedbackForm.jsx:16 | the three trim checks fail exactly when some field is blank |
| FeedbackForm.TrimsToEmpty | src/components/FeedbackForm.jsx:16 | one field's check is true iff the field is blank |
| FeedbackForm.Placeholder | src/components/FeedbackForm.jsx:101-107 | the problem hint, the idea hint, or the appreciation hint for any other type |
| FeedbackForm.Form.constructor | src/components/FeedbackForm.jsx:6-11 | the type starts as "problem", every field empty, no thanks and no error |
| FeedbackForm.Form.SubmitDisabled | src/components/FeedbackForm.jsx:121 | the button is disabled exactly when the submit refuses: some field is blank |
| FeedbackForm.Form.Submit | src/components/FeedbackForm.jsx:13-31 | an incomplete form sets "All fields are required." and inserts nothing; otherwise the row is inserted; success shows the thanks, clears the error and empties the three fields; failure sets the failure message and keeps them; the type never changes |
| FeedbackForm.Form.SetName | src/components/FeedbackForm.jsx:43 | sets the name, nothing else |
| FeedbackForm.Form.SetEmail | src/components/FeedbackForm.jsx:56 | sets the email, nothing else |
| FeedbackForm.Form.SetMessage | src/components/FeedbackForm.jsx:109 | sets the message, nothing else |
| FeedbackForm.Form.SetFeedbackType | src/components/FeedbackForm.jsx:68 | sets the type, nothing else |
| FeedbackForm.Form.HideThanks | src/components/FeedbackForm.jsx:29 | the timer hides the thanks, nothing else |

## Left out

- All database calls are outside the model: fetches, inserts, updates, deletes, authentication and sessions. Every screen's fetch and every store call becomes a parameter, namely the fetched rows, or the success flag and returned row.
- Asynchrony is not modelled: `Promise.all`, the order in which responses arrive, and a late response overwriting a newer one.
- Goal, account and transaction CRUD handlers only call the store and re-fetch, so they have no client rule to model. This covers Goals' `handleAdd`, `handleEdit` and `handleDelete`, and the Accounts handlers.
- Accounts' `handleAdd`/`handleUpdate` coercion of the balance field is not part of this model.
- Number formatting is left out: `toFixed`, `toLocaleString` and the currency sign. Amounts are exact integers and percentages exact reals, not floating point.
- Non-numeric text coerced by `Number(...)` is not modelled, and neither is `NaN`. An amount that is not a number is an absent amount (`None`) where the source tests it: the budget form and the goal fields.
- Time of day and time zones are not modelled. `new Date(...)` on stored date strings is not modelled, and neither is an invalid date string.
  - Budgets.InPeriod: the weekly window is compared at day resolution. The source compares timestamps against `now`'s time of day.
  - Dashboard.TrendSkipsFirstDay: the strict start is likewise stated per day.
- Locale-dependent captions are not modelled: `toLocaleDateString`, `toLocaleString("default", …)`, and `format(d, "MMM yyyy")` text. A month label is represented by its month ordinal, which is equal exactly when the labels are equal.
- Object-key quirks of JavaScript are not modelled:
  - a category named like an `Object.prototype` property;
  - integer-like keys, which `Object.entries` lists before the others;
  - keys are taken in insertion order.
- Draft values in the dialog are text. Numeric values in an edited row are not distinguished from their text.
- Rendering, charts, PDF export, `window.confirm`, `alert` and DOM listeners are not modelled. `setTimeout` appears only as `HideThanks`, the step it schedules.
- Sorting.SortBy: the order of rows that share a key is not stated. The line chart has no such rows because its dates are distinct.
- Reports.BuildLineChart: the rows are sorted by a stable insertion sort rather than the engine's `Array.prototype.sort`. Only the result's content and order by date are stated.
- Budgets.BudgetsScreen.HandleSave: an insert that returns no row leaves the list as it was, as the source does. The store's id is assumed fresh only for the uniqueness invariant.
