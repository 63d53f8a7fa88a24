/** The budget-alert hook: when the expense list has grown, the month's
    spending is checked against the overall budget and each category budget. */
module BudgetAlerts {
  import opened CivilDate
  import opened Types
  import opened SeqUtil
  import opened JsNumber
  import opened Aggregates

  /** A call the hook makes: `showOverallBudgetWarning(spent, limit)` or
      `showBudgetWarning(category, spent, limit)`. */
  datatype Alert = OverallAlert(spent: real, limit: real) | CategoryAlert(category: string, spent: real, limit: real)

  /** `settings.budgetAlertThreshold || 80`. */
  function Threshold(s: AppSettings): (t: real)
    ensures t != 0.0
    ensures s.budgetAlertThreshold != 0.0 ==> t == s.budgetAlertThreshold
  {
    if s.budgetAlertThreshold == 0.0 then 80.0 else s.budgetAlertThreshold
  }

  function OverallAlerts(s: AppSettings, total: real): seq<Alert> {
    if s.monthlyBudget > 0.0 && AtLeast(Percent(total, s.monthlyBudget), Threshold(s))
    then [OverallAlert(total, s.monthlyBudget)] else []
  }

  /** One alert for each budget, in order, whose category's month spending reaches the threshold. */
  function BudgetAlertsFor(budgets: seq<CategoryBudget>, monthExpenses: seq<Expense>, threshold: real): seq<Alert> {
    if budgets == [] then []
    else
      var b := budgets[|budgets| - 1];
      var spent := CategoryTotal(monthExpenses, b.category);
      BudgetAlertsFor(budgets[..|budgets| - 1], monthExpenses, threshold)
        + (if AtLeast(Percent(spent, b.limit), threshold) then [CategoryAlert(b.category, spent, b.limit)] else [])
  }

  /** Everything one check raises for the month `month`. */
  function AlertsFor(expenses: seq<Expense>, s: AppSettings, month: MonthKey): seq<Alert> {
    var monthExpenses := MonthExpenses(expenses, month);
    OverallAlerts(s, Total(monthExpenses)) + BudgetAlertsFor(s.categoryBudgets, monthExpenses, Threshold(s))
  }

  /** The body of the check once it has decided to run. */
  method CheckBudgets(expenses: seq<Expense>, s: AppSettings, month: MonthKey) returns (alerts: seq<Alert>)
    ensures alerts == AlertsFor(expenses, s, month)
  {
    var threshold := if s.budgetAlertThreshold == 0.0 then 80.0 else s.budgetAlertThreshold;
    var monthExpenses := MonthExpenses(expenses, month);
    var totalSpent := Total(monthExpenses);
    alerts := [];
    if s.monthlyBudget > 0.0 {
      var percent := Percent(totalSpent, s.monthlyBudget);
      if AtLeast(percent, threshold) {
        alerts := alerts + [OverallAlert(totalSpent, s.monthlyBudget)];
      }
    }
    if |s.categoryBudgets| > 0 {
      var categoryAlerts := CheckCategoryBudgets(s.categoryBudgets, monthExpenses, threshold);
      alerts := alerts + categoryAlerts;
    }
  }

  /** One more budget adds its alert, if any, at the end. */
  lemma BudgetAlertsStep(budgets: seq<CategoryBudget>, i: int, monthExpenses: seq<Expense>, threshold: real)
    requires 0 <= i < |budgets|
    ensures var b := budgets[i];
      var spent := CategoryTotal(monthExpenses, b.category);
      BudgetAlertsFor(budgets[..i + 1], monthExpenses, threshold)
      == BudgetAlertsFor(budgets[..i], monthExpenses, threshold)
        + (if AtLeast(Percent(spent, b.limit), threshold) then [CategoryAlert(b.category, spent, b.limit)] else [])
  {
    assert budgets[..i + 1][..i] == budgets[..i] && budgets[..i + 1][i] == budgets[i];
  }

  /** The loop over the category budgets, reading the month's spending per
      category from the totals built by `SumByCategory`. */
  method CheckCategoryBudgets(budgets: seq<CategoryBudget>, monthExpenses: seq<Expense>, threshold: real)
    returns (alerts: seq<Alert>)
    ensures alerts == BudgetAlertsFor(budgets, monthExpenses, threshold)
  {
    var categorySpending := SumByCategory(monthExpenses);
    alerts := [];
    var i := 0;
    while i < |budgets|
      invariant 0 <= i <= |budgets|
      invariant alerts == BudgetAlertsFor(budgets[..i], monthExpenses, threshold)
    {
      BudgetAlertsStep(budgets, i, monthExpenses, threshold);
      var budget := budgets[i];
      var spent := Lookup(categorySpending, budget.category);
      var percent := Percent(spent, budget.limit);
      if AtLeast(percent, threshold) {
        alerts := alerts + [CategoryAlert(budget.category, spent, budget.limit)];
      }
      i := i + 1;
    }
    assert budgets[..i] == budgets;
  }

  /** A category alert is raised exactly for a budget whose category's month
      spending, as a percentage of its limit, reaches the threshold. */
  lemma {:induction false} BudgetAlertsMembership(budgets: seq<CategoryBudget>, monthExpenses: seq<Expense>, threshold: real, a: Alert)
    ensures a in BudgetAlertsFor(budgets, monthExpenses, threshold) <==>
      a.CategoryAlert? && a.spent == CategoryTotal(monthExpenses, a.category)
      && AtLeast(Percent(a.spent, a.limit), threshold)
      && CategoryBudget(a.category, a.limit) in budgets
    decreases |budgets|
  {
    if budgets != [] {
      var n := |budgets| - 1;
      var b := budgets[n];
      var spent := CategoryTotal(monthExpenses, b.category);
      var tail := if AtLeast(Percent(spent, b.limit), threshold) then [CategoryAlert(b.category, spent, b.limit)] else [];
      BudgetAlertsMembership(budgets[..n], monthExpenses, threshold, a);
      BudgetAlertsStep(budgets, n, monthExpenses, threshold);
      assert budgets[..n + 1] == budgets;
      assert a in BudgetAlertsFor(budgets, monthExpenses, threshold)
        <==> a in BudgetAlertsFor(budgets[..n], monthExpenses, threshold) || a in tail;
      assert budgets == budgets[..n] + [b];
      if a.CategoryAlert? {
        assert CategoryBudget(a.category, a.limit) in budgets
          <==> CategoryBudget(a.category, a.limit) in budgets[..n] || CategoryBudget(a.category, a.limit) == b;
      }
    }
  }

  lemma {:induction false} OnlyCategoryAlerts(budgets: seq<CategoryBudget>, monthExpenses: seq<Expense>, threshold: real)
    ensures forall a :: a in BudgetAlertsFor(budgets, monthExpenses, threshold) ==> a.CategoryAlert?
    decreases |budgets|
  {
    if budgets != [] {
      OnlyCategoryAlerts(budgets[..|budgets| - 1], monthExpenses, threshold);
    }
  }

  /** The overall alert is raised exactly when there is a monthly budget and
      the month's spending reaches the threshold percentage of it; it comes
      first, before every category alert. */
  lemma OverallAlertIff(s: AppSettings, total: real)
    ensures OverallAlerts(s, total) ==
      if s.monthlyBudget > 0.0 && total * 100.0 >= Threshold(s) * s.monthlyBudget
      then [OverallAlert(total, s.monthlyBudget)] else []
  {
    if s.monthlyBudget > 0.0 {
      PercentPositive(total, s.monthlyBudget, Threshold(s));
    }
  }

  /** With a positive limit, a category alert reaches the threshold in exact terms;
      a category with no spending this month counts as zero. */
  lemma CategoryAlertMeaning(expenses: seq<Expense>, s: AppSettings, month: MonthKey, a: Alert)
    requires a in BudgetAlertsFor(s.categoryBudgets, MonthExpenses(expenses, month), Threshold(s))
    requires a.CategoryAlert? && a.limit > 0.0
    ensures a.spent * 100.0 >= Threshold(s) * a.limit
    ensures a.spent == CategoryTotal(MonthExpenses(expenses, month), a.category)
  {
    BudgetAlertsMembership(s.categoryBudgets, MonthExpenses(expenses, month), Threshold(s), a);
    PercentPositive(a.spent, a.limit, Threshold(s));
  }

  /** The hook's one piece of state: the expense count it saw last. */
  class AlertHook {
    var previousExpenseCount: nat

    /** `useRef(expenses.length)`. */
    constructor (expenses: seq<Expense>)
      ensures previousExpenseCount == |expenses|
    {
      previousExpenseCount := |expenses|;
    }

    /** One run of the effect: it checks only when the expense count grew
        past the count last seen, and only with notifications enabled; the
        count is remembered either way. */
    method OnChange(expenses: seq<Expense>, s: AppSettings, month: MonthKey) returns (alerts: seq<Alert>)
      modifies this
      ensures previousExpenseCount == |expenses|
      ensures alerts == if |expenses| > old(previousExpenseCount) && s.notificationsEnabled
        then AlertsFor(expenses, s, month) else []
    {
      if |expenses| <= previousExpenseCount {
        previousExpenseCount := |expenses|;
        return [];
      }
      previousExpenseCount := |expenses|;
      if !s.notificationsEnabled {
        return [];
      }
      alerts := CheckBudgets(expenses, s, month);
    }
  }
}
