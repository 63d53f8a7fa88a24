# MoneyTrunk core, modelled in Dafny

MoneyTrunk is a single-user personal-finance app. Its state lives in one store, the `useAppStore` hook. That store holds:

- bills and subscriptions;
- income, expenses and recurring-expense templates;
- savings goals;
- money borrowed and lent;
- assets, liabilities and a net-worth history;
- settings and a tag list.

The store is changed only through its actions. The pages derive totals, charts and forms from it. A few small dialogs run their own input state machines.

This project models:

- the store, as the class `Store.AppStore` with one `seq` field per collection and one method per action. Each method's `modifies` clause names exactly the fields the action replaces;
- the domain types (`Types`), with their enums, constants, default settings and seed data;
- the budget alerts hook (`BudgetAlerts.AlertHook`) and the notification tiers (`Notifications`);
- the pages: Budget, Analytics, Dashboard, Income, Expenses, Calendar, Net Worth, Loans, Savings, Bills and Settings. Each page's derivations are functions, with lemmas stating what they mean. Where the page builds its result with loops, it is a method proved against those functions;
- the search dialog, the tag input, the PIN lock, the PIN setup dialog and the quick-add dialog, each as a class whose methods are the component's handlers;
- the progress bar's clamp.

Conventions used throughout:

- Amounts are exact `real`s.
- Dates are valid Gregorian civil dates (`CivilDate.Date`). "Today" and the current month are parameters.
- Fresh ids are parameters.
- A blank optional form field is `None`.
- The SHA-256 hash used by the PIN screens is a function parameter.
- Division by zero follows JavaScript (`JsNumber`) wherever the source does not guard it.

## Model

| member | source | states |
|---|---|---|
| Store.AppStore.constructor | src/stores/useAppStore.ts:94-97 | the store starts as the seed data, with one snapshot per date |
| Store.AppStore.AddBill | src/stores/useAppStore.ts:100-103 | the bill is appended with the fresh id; only `bills` changes |
| Store.AppStore.UpdateBill | src/stores/useAppStore.ts:104-107 | every bill with that id is shallow-merged with the patch; the others and the order are kept |
| Store.AppStore.DeleteBill | src/stores/useAppStore.ts:108-111 | every bill with that id is removed; only `bills` changes |
| Store.AppStore.AddSubscription | src/stores/useAppStore.ts:114-117 | appended with the fresh id; nothing else changes |
| Store.AppStore.UpdateSubscription | src/stores/useAppStore.ts:118-123 | merges the patch into the subscriptions with that id |
| Store.AppStore.DeleteSubscription | src/stores/useAppStore.ts:124-127 | removes the subscriptions with that id |
| Store.AppStore.AddIncome | src/stores/useAppStore.ts:130-133 | appended with the fresh id; nothing else changes |
| Store.AppStore.UpdateIncome | src/stores/useAppStore.ts:134-137 | merges the patch into the income items with that id |
| Store.AppStore.DeleteIncome | src/stores/useAppStore.ts:138-141 | removes the income items with that id |
| Store.AppStore.AddExpense | src/stores/useAppStore.ts:144-147 | appended with the fresh id; nothing else changes |
| Store.AppStore.UpdateExpense | src/stores/useAppStore.ts:148-153 | merges the patch into the expenses with that id |
| Store.AppStore.DeleteExpense | src/stores/useAppStore.ts:154-157 | removes the expenses with that id |
| Store.AppStore.AddRecurringExpense | src/stores/useAppStore.ts:160-166 | appended with the fresh id; nothing else changes |
| Store.AppStore.UpdateRecurringExpense | src/stores/useAppStore.ts:167-172 | merges the patch into the templates with that id |
| Store.AppStore.DeleteRecurringExpense | src/stores/useAppStore.ts:173-176 | removes the templates with that id |
| Store.AppStore.ProcessRecurringExpenses | src/stores/useAppStore.ts:177-236 | templates become `Process(...).0` and the generated expenses are appended after the existing ones; only those two fields change |
| Store.AppStore.AddSavingsGoal | src/stores/useAppStore.ts:239-242 | appended with the fresh id |
| Store.AppStore.UpdateSavingsGoal | src/stores/useAppStore.ts:243-246 | merges the patch into the goals with that id |
| Store.AppStore.DeleteSavingsGoal | src/stores/useAppStore.ts:247-250 | removes the goals with that id |
| Store.AppStore.AddToSavings | src/stores/useAppStore.ts:251-256 | the goals with that id gain exactly the amount, with no cap; the others are untouched |
| Store.AppStore.AddBorrowed | src/stores/useAppStore.ts:259-265 | appended with the fresh id and an empty payment list |
| Store.AppStore.UpdateBorrowed | src/stores/useAppStore.ts:266-271 | merges the patch into the loans with that id |
| Store.AppStore.DeleteBorrowed | src/stores/useAppStore.ts:272-275 | removes the loans with that id |
| Store.AppStore.AddPaymentToBorrowed | src/stores/useAppStore.ts:276-289 | the loans with that id get `ApplyPayment` with the payment under its fresh id; the other loans are untouched |
| Store.AppStore.AddLent | src/stores/useAppStore.ts:292-295 | appended with the fresh id and an empty repayment list |
| Store.AppStore.UpdateLent | src/stores/useAppStore.ts:296-299 | merges the patch into the loans with that id |
| Store.AppStore.DeleteLent | src/stores/useAppStore.ts:300-303 | removes the loans with that id |
| Store.AppStore.AddRepaymentToLent | src/stores/useAppStore.ts:304-317 | same payment rule as borrowed money, on the lent list |
| Store.AppStore.AddAsset | src/stores/useAppStore.ts:320-323 | appended with the fresh id |
| Store.AppStore.UpdateAsset | src/stores/useAppStore.ts:324-327 | merges the patch into the assets with that id |
| Store.AppStore.DeleteAsset | src/stores/useAppStore.ts:328-331 | removes the assets with that id |
| Store.AppStore.AddLiability | src/stores/useAppStore.ts:334-337 | appended with the fresh id |
| Store.AppStore.UpdateLiability | src/stores/useAppStore.ts:338-343 | merges the patch into the liabilities with that id |
| Store.AppStore.DeleteLiability | src/stores/useAppStore.ts:344-347 | removes the liabilities with that id |
| Store.AppStore.RecordNetWorthSnapshot | src/stores/useAppStore.ts:350-381 | the history becomes the upsert of today's snapshot, and one snapshot per date is preserved |
| Store.AppStore.UpdateSettings | src/stores/useAppStore.ts:384-387 | settings become the field-wise merge of the patch |
| Store.AppStore.AddTag | src/stores/useAppStore.ts:390-393 | tags become `TagSet.AddTag` of the old tags |
| Store.AppStore.RemoveTag | src/stores/useAppStore.ts:394-397 | tags become `TagSet.RemoveTag` of the old tags |
| Store.AppStore.ImportData | src/stores/useAppStore.ts:400 | the nine keys of the backup replace the store's; templates, assets, liabilities and history are kept |
| Store.AppStore.ResetData | src/stores/useAppStore.ts:401 | the store is the seed data again |
| Types.ParseBillStatus | src/types/index.ts:3-8 | a parsed status prints back as the same string |
| Types.ParseFrequency | src/types/index.ts:10-16 | a parsed frequency prints back as the same string |
| Types.ParseLoanStatus | src/types/index.ts:18-22 | a parsed status prints back as the same string |
| Types.FrequencyValueRoundTrip | src/types/index.ts:10-16 | parsing a frequency's string gives the frequency back |
| Types.FrequencyValuesDistinct | src/types/index.ts:10-16 | the five frequency strings are distinct |
| Types.LoanStatusValuesDistinct | src/types/index.ts:18-22 | the three loan statuses are distinct and round-trip |
| Types.BillStatusValuesDistinct | src/types/index.ts:3-8 | the four bill statuses are distinct and round-trip |
| Types.CategoriesShape | src/types/index.ts:219-245 | 15 distinct expense categories and 7 distinct bill categories, each list ending in "Other" |
| Types.DefaultSettingsShape | src/types/index.ts:247-257 | threshold 80, budget 0, no category budgets, PIN, notifications and dark mode off |
| Types.SeedDataShape | src/types/index.ts:259-273 | every collection empty, default settings, no tags |
| Collection.UpdatedPointwise | src/stores/useAppStore.ts:104-107 | update by id merges exactly the records with that id, position by position |
| Collection.UpdatedAbsent | src/stores/useAppStore.ts:104-107 | updating an absent id changes nothing |
| Collection.RemovedMembership | src/stores/useAppStore.ts:108-111 | a record survives delete iff its id differs |
| Collection.AddThenRemove | src/stores/useAppStore.ts:100-111 | deleting a just-added record with a fresh id restores the collection |
| Patches.MergeSettingsLaws | src/stores/useAppStore.ts:384-387 | an empty patch changes nothing, merging twice equals merging once, and set fields win |
| Ledger.ApplyPayment | src/stores/useAppStore.ts:278-288 | balance is max(0, balance - amount) and never negative; the payment is appended; the status flips to PaidOff iff balance - amount <= 0; nothing else changes |
| Ledger.ActivePaidOffIffZero | src/stores/useAppStore.ts:284-286 | for an active loan, paid off after a payment iff the balance is now 0 |
| Ledger.PaymentsCompose | src/stores/useAppStore.ts:281-285 | two non-negative payments leave the balance of one payment of their sum |
| Ledger.PaidOffIsFinal | src/stores/useAppStore.ts:286 | a paid-off loan stays paid off |
| Ledger.Deposit | src/stores/useAppStore.ts:254 | a deposit raises only the current amount, by exactly the amount |
| Ledger.DepositsAccumulate | src/stores/useAppStore.ts:251-256 | two deposits equal one of their sum; going past the target is not capped |
| Recurring.Materialize | src/stores/useAppStore.ts:193-201 | the generated expense is dated the template's next due date and links to the template |
| Recurring.Process | src/stores/useAppStore.ts:183-229 | the template list keeps its length |
| Recurring.ProcessTemplates | src/stores/useAppStore.ts:184-229 | each template is stepped on its own, in place and in order |
| Recurring.ProcessExpenses | src/stores/useAppStore.ts:183-201 | exactly one expense per due template, in template order |
| Recurring.AdvanceByFrequency | src/stores/useAppStore.ts:204-222 | weekly +7 days, biweekly +14, monthly and yearly strictly later, one-time unchanged |
| Recurring.OneTimeFiresAgain | src/stores/useAppStore.ts:218-226 | a due one-time template keeps its due date, so it is due on the next call too |
| Recurring.PeriodicAdvances | src/stores/useAppStore.ts:204-226 | a due periodic template moves strictly later and records today as last generated |
| Recurring.OnePeriodPerCall | src/stores/useAppStore.ts:204-210 | a weekly template three weeks behind emits one expense per call and is still due |
| Recurring.MonthlyOverflow | src/stores/useAppStore.ts:213-215 | January 31 advances to March 2 in a leap year |
| CivilDate.DaysInMonth | src/pages/Calendar.tsx:81-82 | between 28 and 31; February has 29 days exactly in leap years |
| CivilDate.Weekday | src/pages/Calendar.tsx:83 | a weekday index from 0 to 6 |
| CivilDate.WeekdayCycle | src/pages/Calendar.tsx:83 | `getDay` of the first of the month: the weekday advances by one each day, modulo 7 |
| CivilDate.WeekdayAnchors | src/pages/Calendar.tsx:83 | Sunday is 0: 1970-01-01 is a Thursday (4) and 2024-01-01 a Monday (1) |
| CivilDate.DayNumberOrder | src/stores/useAppStore.ts:191 | comparing dates is comparing their day numbers |
| CivilDate.AddDaysNumber | src/stores/useAppStore.ts:207-212 | adding n days moves the day number by n |
| CivilDate.NormalizeShape | src/stores/useAppStore.ts:213-215 | a day past the month's end rolls into the next month |
| CivilDate.AddMonthsJsLater | src/stores/useAppStore.ts:213-215 | adding months gives a strictly later date |
| CivilDate.AddYearsJsLater | src/stores/useAppStore.ts:216-218 | adding years gives a strictly later date |
| NetWorthHistory.TakeSnapshot | src/stores/useAppStore.ts:352-355 | dated today, with net worth = assets - liabilities |
| NetWorthHistory.FirstWithDate | src/stores/useAppStore.ts:358-360 | the first index with that date, or -1 iff none |
| NetWorthHistory.UpsertShape | src/stores/useAppStore.ts:362-380 | the history grows by one iff the date is new; the snapshot is in it; other dates are untouched |
| NetWorthHistory.UpsertKeepsUnique | src/stores/useAppStore.ts:362-380 | one snapshot per date is preserved |
| NetWorthHistory.UpsertIdempotent | src/stores/useAppStore.ts:362-372 | recording twice the same day is recording once |
| NetWorthHistory.SnapshotTotals | src/stores/useAppStore.ts:353 | a new asset raises the asset total by its value |
| TagSet.AddTag | src/stores/useAppStore.ts:390-393 | the result holds exactly the old tags and the new one |
| TagSet.RemoveTag | src/stores/useAppStore.ts:394-397 | the result holds exactly the old tags other than the removed one |
| TagSet.AddTagLaws | src/stores/useAppStore.ts:390-393 | idempotent, no change when present, no duplicates introduced |
| TagSet.RemoveTagLaws | src/stores/useAppStore.ts:394-397 | idempotent; no change when absent |
| TagSet.AddThenRemoveTag | src/stores/useAppStore.ts:390-397 | removing a just-added new tag restores the list |
| JsNumber.Div | src/hooks/useBudgetAlerts.ts:49 | JavaScript division: finite for a non-zero divisor, NaN or an infinity by sign for zero |
| JsNumber.Round | src/services/notifications.ts:48 | rounding lands within half a unit; NaN and infinities pass through |
| JsNumber.PercentPositive | src/hooks/useBudgetAlerts.ts:49-50 | with a positive limit, percent >= t iff spent·100 >= t·limit |
| JsNumber.RoundAtLeast | src/services/notifications.ts:48-52 | a rounded percent reaches n iff the exact one reaches n - 0.5 |
| BudgetAlerts.Threshold | src/hooks/useBudgetAlerts.ts:26 | the configured threshold, or 80 when it is 0 |
| BudgetAlerts.CheckBudgets | src/hooks/useBudgetAlerts.ts:25-54 | the alerts produced equal the overall alerts followed by the category alerts |
| BudgetAlerts.CheckCategoryBudgets | src/hooks/useBudgetAlerts.ts:41-53 | the loop over budgets yields exactly the category alerts |
| BudgetAlerts.BudgetAlertsMembership | src/hooks/useBudgetAlerts.ts:47-53 | an alert is raised iff a budget of that category exists and its month total reaches the threshold |
| BudgetAlerts.OnlyCategoryAlerts | src/hooks/useBudgetAlerts.ts:47-53 | the budget loop raises only category alerts |
| BudgetAlerts.OverallAlertIff | src/hooks/useBudgetAlerts.ts:33-38 | the overall alert fires iff the budget is positive and spent·100 >= threshold·budget |
| BudgetAlerts.CategoryAlertMeaning | src/hooks/useBudgetAlerts.ts:29-30 | a category alert carries that category's total over this month's expenses only, and it reaches the threshold |
| BudgetAlerts.AlertHook.OnChange | src/hooks/useBudgetAlerts.ts:13-23 | alerts only when the count grew and notifications are on; the remembered count is always reset |
| Notifications.OverallTier | src/services/notifications.ts:70-86 | the overall warning has no 80 % tier |
| Notifications.BudgetWarning | src/services/notifications.ts:38-68 | shown iff permission is granted and the tier is not silent |
| Notifications.OverallBudgetWarning | src/services/notifications.ts:38-45 | shown iff permission is granted and the overall tier is not silent |
| Notifications.CategoryTierBands | src/services/notifications.ts:48-67 | the three category tiers are disjoint bands of the exact ratio, at 99.5, 89.5 and 79.5 % |
| Notifications.RatioComparison | src/services/notifications.ts:48 | spent/limit·100 >= c iff spent·100 >= c·limit |
| Notifications.OverallTierBands | src/services/notifications.ts:71-85 | the overall tiers match the category ones and are silent below 89.5 % |
| Notifications.ZeroLimit | src/services/notifications.ts:48 | with a zero limit, any spending is "exceeded" and none is silent |
| Notifications.CategoryTagsDistinct | src/services/notifications.ts:55-65 | the three tags differ and each ends with the category name |
| Aggregates.CategoryTotalAppend | src/pages/Budget.tsx:33-41 | a new expense raises only its own category's total |
| Aggregates.TotalAppend | src/pages/Expenses.tsx:50-52 | a new expense raises the total by its amount |
| Aggregates.MonthTotalAppend | src/pages/Dashboard.tsx:43-47 | a new expense raises the month total iff it falls in that month |
| Aggregates.IndexOfCategory | src/hooks/useBudgetAlerts.ts:44 | the first entry with that category, or -1 iff none |
| Aggregates.SumByCategory | src/hooks/useBudgetAlerts.ts:42-45 | the dictionary loop yields distinct keys, each mapped to its category total, summing to the total |
| Aggregates.BumpLookup | src/hooks/useBudgetAlerts.ts:44 | one loop step raises only that category's entry |
| Aggregates.CategoryTotalsLookup | src/pages/Analytics.tsx:69-72 | each category maps to its total |
| Aggregates.CategoryTotalsKeys | src/pages/Analytics.tsx:69-72 | a category has an entry iff some expense has it |
| Aggregates.CategoryTotalsDistinct | src/pages/Analytics.tsx:69-72 | no category appears twice |
| Aggregates.CategoryTotalsSum | src/pages/Budget.tsx:44-46 | the per-category amounts sum to the total spending |
| Aggregates.BudgetProgressMeaning | src/pages/Dashboard.tsx:109-111 | with a positive budget, progress > t iff spent·100 > t·budget; 0 without a budget |
| BudgetPage.CategorySpending | src/pages/Budget.tsx:33-46 | each category maps to its current-month total, and the sum of the values is the month's total |
| BudgetPage.AvailableCategoriesMembership | src/pages/Budget.tsx:49-52 | a category is offered iff it is a known category with no budget yet |
| BudgetPage.SaveBudget | src/pages/Budget.tsx:61-75 | adding appends; editing keeps the length |
| BudgetPage.SaveBudgetEdit | src/pages/Budget.tsx:63-69 | editing replaces exactly the entries of the edited category |
| BudgetPage.DeleteBudget | src/pages/Budget.tsx:80-84 | no entry of that category remains, and all other entries do |
| BudgetPage.AddThenDeleteBudget | src/pages/Budget.tsx:49-84 | deleting a just-added budget restores the list; an added category is no longer offered |
| BudgetPage.StatusColorBands | src/pages/Budget.tsx:101-106 | red iff spent >= limit, yellow iff 80 % <= spent < limit; a zero limit is red iff anything is spent |
| BudgetPage.Row | src/pages/Budget.tsx:205-208 | over and warning never hold together; the remaining amount is never negative and covers limit - spent; without a limit there is no percent and no warning |
| BudgetPage.RowBands | src/pages/Budget.tsx:206-208 | over iff spent > limit; warning iff 80 % <= spent <= limit |
| BudgetPage.AtTheLimit | src/pages/Budget.tsx:101-106 | spending exactly the limit shows red but counts as a warning, not over |
| BudgetPage.Unbudgeted | src/pages/Budget.tsx:266-277 | exactly the spent categories with no budget, by amount descending |
| Analytics.PreviousMonth | src/pages/Analytics.tsx:53-54 | the month before, with January going back to December |
| Analytics.RangeExpenses | src/pages/Analytics.tsx:44-64 | an expense is kept iff its date is in the selected range |
| Analytics.MonthRanges | src/pages/Analytics.tsx:49-55 | 'thisMonth' is this month's expenses; in January, 'lastMonth' is last December's |
| Analytics.Entries | src/pages/Analytics.tsx:74-80 | one entry per category |
| Analytics.CategoryData | src/pages/Analytics.tsx:67-81 | the entries, sorted by amount descending, as a permutation |
| Analytics.CategoryDataMeaning | src/pages/Analytics.tsx:67-81 | each entry carries its category total and share, and a colour below 10 |
| Analytics.CategoryDataCoverage | src/pages/Analytics.tsx:69-74 | every category with spending has an entry |
| Analytics.CategoryPercentagesSum | src/pages/Analytics.tsx:78 | with spending, the percentages add to 100 |
| Analytics.TrendData | src/pages/Analytics.tsx:85-102 | six buckets, each holding its month's total |
| Analytics.TrendWindow | src/pages/Analytics.tsx:90-94 | consecutive months ending with the current one |
| Analytics.PercentChangeMeaning | src/pages/Analytics.tsx:149-154 | with a positive base, the change recovers the current value and its sign is the comparison; otherwise 100 iff current > 0 |
| Analytics.YoyData | src/pages/Analytics.tsx:115-156 | 12 rows, one per month: this year's and last year's totals, their difference and the percent rule |
| Analytics.MonthsTotalIsYearToDate | src/pages/Analytics.tsx:170-173 | the per-month loop totals the expenses of the year's first n months |
| Analytics.ComputeYoySummary | src/pages/Analytics.tsx:159-181 | year-to-date totals up to the current month inclusive, with the same percent rule |
| Dashboard.BillsSummaryBounds | src/pages/Dashboard.tsx:50-61 | paid count <= count, and no more is paid than is due when no bill is overpaid |
| Dashboard.SubscriptionsTotalYearly | src/pages/Dashboard.tsx:64-68 | twelve times the monthly total is the yearly cost of all subscriptions |
| Dashboard.UpcomingBillsMeaning | src/pages/Dashboard.tsx:83-99 | at most 5 unpaid bills due within the week, by due date ascending, and none left out that is due earlier |
| Dashboard.RecentExpensesMeaning | src/pages/Dashboard.tsx:102-106 | the 5 latest expenses, newest first, and none left out that is newer |
| Dashboard.BudgetToneMeaning | src/pages/Dashboard.tsx:220-240 | red iff spent > budget; green iff spent <= 80 % of it |
| Dashboard.BudgetLineOf | src/pages/Dashboard.tsx:244-246 | the remaining amount, or by how much the budget is exceeded |
| Dashboard.Greeting | src/pages/Dashboard.tsx:113-115 | names the user when a name is set |
| IncomePage.TotalsAppend | src/pages/Income.tsx:33-53 | a new item adds amount × frequency factor (1, 2, 4 or 0) to the monthly total and counts toward the one-time total only if it is one-time |
| IncomePage.YearlyIgnored | src/pages/Dashboard.tsx:27-40 | a yearly item counts in neither total |
| IncomePage.FormFrequenciesShape | src/pages/Income.tsx:98-103 | the form offers four frequencies, every one except yearly |
| IncomePage.SubmitIncome | src/pages/Income.tsx:55-69 | updates iff an item is being edited, and then that item's id |
| IncomePage.SubmitEditMerges | src/pages/Income.tsx:55-69 | the edited item takes the form's values and keeps its id |
| ExpensesPage.AvailableMonths | src/pages/Expenses.tsx:32-40 | exactly the current month and the months with expenses, without duplicates, newest first |
| ExpensesPage.FilteredExpensesMeaning | src/pages/Expenses.tsx:43-52 | exactly the selected month's expenses, newest first, totalling the month |
| ExpensesPage.BudgetBarFollowsSelection | src/pages/Expenses.tsx:81-83 | the bar is full iff the month's total reaches the budget; 0 without a budget |
| ExpensesPage.SubmitExpense | src/pages/Expenses.tsx:54-61 | the expense carries the form's fields and no recurring link |
| ExpensesPage.SubmitRaisesTotal | src/pages/Expenses.tsx:54-61 | a submitted expense raises its month's total by its amount |
| CalendarPage.CalendarData | src/pages/Calendar.tsx:26-76 | each day holds exactly the expenses, income, bills and subscriptions dated that day, in order |
| CalendarPage.AddExpenses | src/pages/Calendar.tsx:29-39 | the expense loop groups every expense under its date |
| CalendarPage.AddIncome | src/pages/Calendar.tsx:41-50 | the income loop groups income under its next expected date |
| CalendarPage.AddBills | src/pages/Calendar.tsx:52-62 | the bill loop groups bills under their due date |
| CalendarPage.AddSubscriptions | src/pages/Calendar.tsx:64-73 | the subscription loop groups subscriptions under their next billing date |
| CalendarPage.GroupedSum | src/pages/Calendar.tsx:26-76 | a day's amounts sum to the amounts of the items dated that day |
| CalendarPage.DayNetMeaning | src/pages/Calendar.tsx:345-350 | a day's net is its income less its expenses, bills and subscriptions |
| CalendarPage.CalendarDays | src/pages/Calendar.tsx:79-98 | blanks up to the weekday of the 1st, then 1..days-in-month |
| CalendarPage.GridCellsAreDays | src/pages/Calendar.tsx:112-115 | every numbered cell is a real day of the displayed month |
| CalendarPage.FebruaryOverflow | src/pages/Calendar.tsx:102-106 | day 30 or 31 of February overflows into March |
| CalendarPage.NavigateAsWrittenSkips | src/pages/Calendar.tsx:102-106 | as written, "next" from January 30 or 31 lands in March |
| CalendarPage.NavigateMonth | src/pages/Calendar.tsx:102-106 | the displayed month moves by exactly the direction |
| CalendarPage.NavigateRoundTrip | src/pages/Calendar.tsx:102-106 | next then previous returns to the same month |
| NetWorthPage.SnapshotAgreesWithPage | src/pages/NetWorth.tsx:76-93 | the recorded net worth is the page's; without assets and liabilities the snapshot would be all zero |
| NetWorthPage.ChartData | src/pages/NetWorth.tsx:96-106 | one point per charted snapshot |
| NetWorthPage.ChartMeaning | src/pages/NetWorth.tsx:96-106 | at most 12 snapshots, date ascending, and none left out that is later |
| NetWorthPage.NotesOf | src/pages/NetWorth.tsx:142 | blank notes become undefined |
| NetWorthPage.SubmitAsset | src/pages/NetWorth.tsx:135-152 | updates iff editing; a new asset is dated today |
| NetWorthPage.SubmitAssetEdit | src/pages/NetWorth.tsx:135-152 | the edited asset takes the form and today's date and keeps its id |
| NetWorthPage.SubmitLiability | src/pages/NetWorth.tsx:182-202 | updates iff editing; a new liability is dated today |
| NetWorthPage.SubmitLiabilityEdit | src/pages/NetWorth.tsx:182-202 | a blank interest rate clears the edited liability's rate |
| NetWorthPage.TypeLabelsDistinct | src/pages/NetWorth.tsx:205-228 | the labels are distinct and every type has its own label |
| LoansPage.NewLoan | src/pages/Loans.tsx:46-56 | active, no payments, with the balance defaulting to the original amount |
| LoansPage.HandlePayment | src/pages/Loans.tsx:66-73 | a payment is made iff a loan and an amount are given; it is dated today |
| LoansPage.ProgressBounds | src/pages/Loans.tsx:174-176 | progress is within 0..100, and 100 iff nothing is owed |
| LoansPage.StatusLabel | src/pages/Loans.tsx:199 | "Active" iff the loan is active |
| LoansPage.LabelsAndButton | src/pages/Loans.tsx:199-218 | forgiven shows "Paid Off"; a paid-off loan offers no payment button |
| LoansPage.PaymentNeverRaisesTotal | src/pages/Loans.tsx:99-100 | a payment never raises the total owed |
| SavingsPage.DepositRaisesTotal | src/pages/Savings.tsx:34-36 | a deposit raises the savings total by its amount |
| SavingsPage.SubmitGoal | src/pages/Savings.tsx:38-54 | updates iff editing; a blank current amount is 0 and a blank deadline undefined |
| SavingsPage.SubmitEditClears | src/pages/Savings.tsx:40-49 | editing with blank fields clears the deadline and zeroes the amount |
| SavingsPage.HandleDeposit | src/pages/Savings.tsx:56-64 | a deposit is made iff a goal and an amount are given |
| SavingsPage.CompleteAtHundred | src/pages/Savings.tsx:137-140 | complete iff progress reaches 100, for a positive target |
| SavingsPage.DepositCompletes | src/pages/Savings.tsx:195 | a large enough deposit completes the goal and disables depositing |
| BillsPage.NewBill | src/pages/Bills.tsx:33-44 | a new bill is unpaid, never paid, and carries the form's fields |
| BillsPage.MarkAsPaidEffect | src/pages/Bills.tsx:57-62 | only status and paid date change; the "Mark Paid" button disappears |
| BillsPage.MarkAsPaidInStore | src/pages/Bills.tsx:57-62 | in the store, exactly the bills with that id are marked |
| BillsPage.StatusBadgeDistinct | src/pages/Bills.tsx:71-82 | the badges are distinct, and "Unpaid" only for unpaid |
| SettingsPage.ParseBudget | src/pages/Settings.tsx:26 | an unparsable budget is 0 |
| SettingsPage.SaveProfileEffect | src/pages/Settings.tsx:23-27 | only the name and budget change |
| SettingsPage.HandleSaveProfile | src/pages/Settings.tsx:23-27 | the store's settings get the name and parsed budget |
| SettingsPage.Export | src/pages/Settings.tsx:31-42 | the nine exported keys carry the store's values |
| SettingsPage.ArrayOr | src/pages/Settings.tsx:70-78 | an array is kept, anything else becomes empty |
| SettingsPage.Validate | src/pages/Settings.tsx:69-79 | non-arrays become empty and missing settings fall back to the current ones |
| SettingsPage.ExportImportRoundTrip | src/pages/Settings.tsx:31-79 | validating an export returns it unchanged |
| SettingsPage.ImportEmptyFile | src/pages/Settings.tsx:69-79 | an empty object imports as empty collections and the current settings |
| SettingsPage.HandleFileChange | src/pages/Settings.tsx:59-92 | no file or a parse failure changes nothing; otherwise the validated data is imported |
| SettingsPage.HandleReset | src/pages/Settings.tsx:94-100 | the store is the seed data again |
| SettingsPage.ToggleDarkModeLaws | src/pages/Settings.tsx:102-104 | flips only dark mode; toggling twice restores the settings |
| SettingsPage.ToggleDarkMode | src/pages/Settings.tsx:102-104 | the store's dark mode is flipped |
| Text.Lower | src/components/shared/SearchDialog.tsx:64 | same length, lower-casing each letter |
| Text.LowerLaws | src/components/ui/tag-input.tsx:26 | no upper case left, idempotent |
| Text.ContainsMeaning | src/components/shared/SearchDialog.tsx:69 | `includes` holds iff the text occurs at some index |
| Text.ContainsLaws | src/components/ui/tag-input.tsx:26 | the empty string and the text itself are contained; nothing longer is |
| Text.TrimShape | src/components/ui/tag-input.tsx:31 | trimming removes only spaces and leaves none at either end |
| Text.TrimIdempotent | src/components/ui/tag-input.tsx:31 | trimming twice is trimming once |
| Text.BlankMeaning | src/components/shared/SearchDialog.tsx:60 | a string trims to empty iff it is all spaces |
| Text.BlankIgnoresCase | src/components/shared/SearchDialog.tsx:60-64 | lower-casing keeps a query blank or not |
| Text.DigitKeyMeaning | src/components/shared/PinLock.tsx:45 | a one-character key passes iff it is a digit; a longer key passes iff, compared as a string, it starts with 0 to 8 |
| SearchDialog.PushMatches | src/components/shared/SearchDialog.tsx:68-72 | one forEach appends exactly the matching records, in order |
| SearchDialog.PushGroup | src/components/shared/SearchDialog.tsx:67-197 | each of the eight loops appends its group |
| SearchDialog.CollectMatches | src/components/shared/SearchDialog.tsx:64-197 | the loops yield all matches, group by group |
| SearchDialog.Results | src/components/shared/SearchDialog.tsx:59-199 | the results are `SearchResults(query, d)` |
| SearchDialog.MatchingMembership | src/components/shared/SearchDialog.tsx:68-72 | a result is listed iff some record yields it and matches |
| SearchDialog.GroupedMeaning | src/components/shared/SearchDialog.tsx:67-197 | grouped results come in group order |
| SearchDialog.BlankQueryListsPages | src/components/shared/SearchDialog.tsx:60-62 | a blank query lists exactly the 12 pages |
| SearchDialog.SearchResultsMeaning | src/components/shared/SearchDialog.tsx:64-199 | at most 10 results, each one a match; all matches when 10 or fewer; in group order |
| SearchDialog.InGroup | src/components/shared/SearchDialog.tsx:67-197 | a match is found iff it is in its own kind's group |
| SearchDialog.BillFound | src/components/shared/SearchDialog.tsx:75-92 | a bill matches on name, category or a tag |
| SearchDialog.SavingsFound | src/components/shared/SearchDialog.tsx:150-162 | a goal matches on its name only |
| SearchDialog.SearchIgnoresCase | src/components/shared/SearchDialog.tsx:64 | the query's case does not matter |
| SearchDialog.ArrowsStayInRange | src/components/shared/SearchDialog.tsx:212-217 | on a non-empty list the arrows keep the index in range |
| SearchDialog.EmptyListSelection | src/components/shared/SearchDialog.tsx:214-217 | on an empty list ArrowDown gives -1 and ArrowUp brings it back to 0 |
| SearchDialog.SearchState.SetQuery | src/components/shared/SearchDialog.tsx:246 | typing sets the query; the selection resets to 0 when the results effect (lines 202-205) sees a new array, which is every change except one between two blank queries |
| SearchDialog.KeptHighlightSameResults | src/components/shared/SearchDialog.tsx:59-62 | when the selection is kept, the listed results are the same ones |
| SearchDialog.SearchState.RecordsChanged | src/components/shared/SearchDialog.tsx:200-205 | a change of the records resets the selection to 0 under a non-blank query; a blank query keeps the page list and the selection |
| SearchDialog.SearchState.Close | src/components/shared/SearchDialog.tsx:230-235 | closing clears the query; the selection resets only if the query was not blank |
| SearchDialog.SearchState.KeyDown | src/components/shared/SearchDialog.tsx:208-228 | ignored when closed; arrows step the index; Enter navigates iff the index is a result, then closes and clears |
| SearchDialog.SearchState.Click | src/components/shared/SearchDialog.tsx:262-269 | navigates to the clicked result, closes and clears |
| TagInput.SuggestionsMeaning | src/components/ui/tag-input.tsx:24-28 | a tag is suggested iff it is known, not chosen and contains the input, ignoring case |
| TagInput.RemoveKeepsNoDuplicates | src/components/ui/tag-input.tsx:43-45 | removing keeps the chosen tags duplicate-free |
| TagInput.BackspaceDropsLast | src/components/ui/tag-input.tsx:51-52 | removing the last tag drops exactly it |
| TagInput.TagInputState.OnChange | src/components/ui/tag-input.tsx:80-83 | typing sets the input and opens the suggestions |
| TagInput.TagInputState.BlurTimeout | src/components/ui/tag-input.tsx:85 | after blur the suggestions close |
| TagInput.TagInputState.HandleAddTag | src/components/ui/tag-input.tsx:30-41 | a new non-blank trimmed tag is appended and added globally if absent; the input always clears |
| TagInput.TagInputState.HandleRemoveTag | src/components/ui/tag-input.tsx:43-45 | every copy of the tag is removed; a duplicate-free list stays duplicate-free |
| TagInput.TagInputState.HandleKeyDown | src/components/ui/tag-input.tsx:47-56 | Enter adds; Backspace on empty input removes every copy of the last tag, which is just the last tag when none is chosen twice; Escape closes; other keys do nothing |
| PinLock.PinLockState.HandleDigit | src/components/shared/PinLock.tsx:16-37 | appends below 4 digits; at 4, unlocks iff the hash matches, else errors and schedules a clear |
| PinLock.PinLockState.HandleDelete | src/components/shared/PinLock.tsx:39-42 | drops the last digit and clears the error |
| PinLock.PinLockState.ClearTimeout | src/components/shared/PinLock.tsx:30-33 | the failed PIN is cleared and the shake stops |
| PinLock.PinLockState.HandleKeyDown | src/components/shared/PinLock.tsx:44-50 | digit keys enter digits, Backspace deletes, other keys do nothing |
| PinSetup.Sanitize | src/components/shared/PinSetupDialog.tsx:101-102 | at most 4 characters, all digits |
| PinSetup.SanitizeLaws | src/components/shared/PinSetupDialog.tsx:101-102 | idempotent; keeps a short digit entry; adds nothing new |
| PinSetup.PinSetupState.ResetForm | src/components/shared/PinSetupDialog.tsx:64-69 | back to the enter step with everything empty |
| PinSetup.PinSetupState.HandleClose | src/components/shared/PinSetupDialog.tsx:71-74 | closes and resets |
| PinSetup.PinSetupState.OnChange | src/components/shared/PinSetupDialog.tsx:101-109 | the current step's field gets the sanitised input; the error clears |
| PinSetup.PinSetupState.HandleSubmit | src/components/shared/PinSetupDialog.tsx:32-62 | disable needs the right PIN; enter needs 4 digits and then moves to confirm keeping both entries; confirm needs a match and then enables the PIN with its hash; a success closes and resets the dialog; a rejection sets its error and keeps the step, both entries and the settings |
| PinSetup.SetupThenUnlock | src/components/shared/PinSetupDialog.tsx:57-58 | after setup the lock accepts exactly the PINs with the same hash; after disabling, none |
| QuickAdd.QuickExpense | src/components/shared/QuickAddDialog.tsx:34-39 | dated today, with the given fields |
| QuickAdd.QuickAddRaisesMonthTotal | src/components/shared/QuickAddDialog.tsx:34-39 | a quick add raises this month's total by its amount |
| QuickAdd.QuickAddState.HandleSubmit | src/components/shared/QuickAddDialog.tsx:30-46 | nothing happens without a description and an amount; otherwise the expense is added and the form resets and closes |
| QuickAdd.QuickAddState.Close | src/components/shared/QuickAddDialog.tsx:88 | cancel closes the dialog |
| ProgressBar.PercentageMeaning | src/components/ui/progress.tsx:19 | within 0..100; 0 without a maximum; 0 iff the value is <= 0; 100 iff it reaches the maximum; exact in between |
| ProgressBar.PercentageMonotonic | src/components/ui/progress.tsx:19 | never decreases as the value grows |

## Left out

- Time of day and time zones. "Today" is the UTC date that the source derives with `toISOString`. Every comparison that the source makes between `Date` objects carrying a time is modelled as a comparison of civil dates.
- `Dashboard.UpcomingBillsMeaning`: the range is the days after today up to and including today + 7. The source compares a due date parsed as midnight UTC with the current time and the current time plus seven days, so a bill due today counts only at exactly midnight UTC. The model leaves it out.
- Analytics' `last90`, `last6Months` and `all` cutoffs are compared as civil dates.
- `parseFloat`, `toFixed` and `Intl` currency formatting are left out. A form number is already parsed; a blank or unparsable field is `None`. Titles and texts that only format numbers are not modelled.
- Persistence (zustand `persist`, localStorage) is left out, and so are the Notification API and permission requests, `FileReader`, `Blob`, the download anchor, document key listeners and `alert`.
- `setTimeout` delays are separate methods (`PinLock.PinLockState.ClearTimeout`, `TagInput.TagInputState.BlurTimeout`). Their timing relative to other events is not modelled.
- React scheduling: memo and effect dependencies, stale closures and re-renders are left out. The search dialog's reset after the store's records change is a separate method, `SearchDialog.SearchState.RecordsChanged`.
- Icons, subtitles and colours of search results and pages are display only. Chart month labels (`toLocaleDateString`) are left out.
- The profile form text that Settings refills after import and reset is left out.
- `toLowerCase` folds only ASCII letters, and `trim` strips only ASCII white space, vertical tab and form feed. Other Unicode case folding and white space are not modelled.
- SHA-256 (FIPS 180-4) is an uninterpreted function parameter.
- `generateId` is a fresh-id parameter. `getMonthKey` is the month of the today parameter.
- The elements of imported arrays are not validated, either by the source or by the model. An imported array is already typed.
- `SettingsPage.Validate`: an imported `settings` value is a complete settings record. The source stores any truthy value as it is, so a partial object replaces the settings and its missing fields read as `undefined`. The model cannot represent such a record.
- `SearchDialog.CollectMatches`: the eight consecutive forEach loops are one loop over the group number.
- `PinLock.PinLockState.HandleKeyDown`: requires that a key passing the `'0' <= key <= '9'` string test is a single character. The source would pass a longer key name starting with a digit from 0 to 8 to `handleDigit`, and browsers have no such key names. `Text.DigitKeyMeaning` states the string test itself in full.
- Sort stability is not modelled. Sorted results are stated as sorted permutations (or top-N selections) of their input.
- Expense dates compared as "YYYY-MM" prefixes match month order only for four-digit years. Years are otherwise unbounded.
- One-time templates: the code (src/stores/useAppStore.ts:218-226) emits the expense for a template of any frequency outside the four periodic ones and leaves its due date unchanged, so the template fires again on every later run. It does not skip such a template. The model follows the code (`Recurring.OneTimeFiresAgain`).
- Catching up: processing advances each due template by one period per call and does not loop until the template is no longer due (`Recurring.OnePeriodPerCall`). The model keeps that behaviour.

## Findings

| source | as written | input that shows it | evidently intended | confidence | as-written member | corrected member |
|---|---|---|---|---|---|---|
| src/pages/Calendar.tsx:102-106 | `navigateMonth` calls `setMonth(getMonth() + direction)` on the currently shown date, including its day of month | shown date January 31 (the calendar opens on today's date); "next" gives March 2 or 3, so February is skipped; "previous" from March 31 gives March 2 or 3 | move the displayed month by exactly one | high (not executed) | CalendarPage.NavigateAsWrittenSkips | CalendarPage.NavigateRoundTrip |
