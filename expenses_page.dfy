/** The expenses page: the months offered in the month selector, the
    selected month's expenses newest first and their total, the budget bar,
    and a new expense from the form. */
module ExpensesPage {
  import opened CivilDate
  import opened Types
  import opened SeqUtil
  import opened Aggregates

  function MonthValue(k: MonthKey): real {
    MonthIndex(k) as real
  }

  /** `availableMonths`: the current month and every month with an
      expense, each once, latest first. The months are gathered into a set
      in the order met, then sorted. */
  method AvailableMonths(expenses: seq<Expense>, current: MonthKey) returns (months: seq<MonthKey>)
    ensures forall m :: m in months <==> m == current || exists e :: e in expenses && MonthOf(e.date) == m
    ensures forall i, j :: 0 <= i < j < |months| ==> MonthIndex(months[i]) > MonthIndex(months[j])
  {
    var seen := [current];
    for i := 0 to |expenses|
      invariant Distinct(seen)
      invariant forall m :: m in seen <==> m == current || exists k :: 0 <= k < i && MonthOf(expenses[k].date) == m
    {
      var key := MonthOf(expenses[i].date);
      if key !in seen {
        seen := seen + [key];
      }
    }
    months := SortDesc(seen, MonthValue);
    DistinctPermutation(months, seen);
    forall m
      ensures m in months <==> m in seen
    {
      MultisetMembership(months, seen, m);
    }
    forall e | e in expenses
      ensures exists k :: 0 <= k < |expenses| && expenses[k] == e
    {
    }
    forall i, j | 0 <= i < j < |months|
      ensures MonthIndex(months[i]) > MonthIndex(months[j])
    {
      MonthIndexInjective(months[i], months[j]);
    }
  }

  function DateKey(e: Expense): real {
    DayNumber(e.date) as real
  }

  /** `filteredExpenses`: the selected month's expenses, newest first. */
  function FilteredExpenses(expenses: seq<Expense>, selected: MonthKey): seq<Expense> {
    SortDesc(MonthExpenses(expenses, selected), DateKey)
  }

  /** The list shows exactly the selected month's expenses, each as often as
      it is stored, newest first, and `monthlyTotal` is that month's total
      spending. */
  lemma FilteredExpensesMeaning(expenses: seq<Expense>, selected: MonthKey, e: Expense)
    ensures e in FilteredExpenses(expenses, selected) <==> e in expenses && MonthOf(e.date) == selected
    ensures multiset(FilteredExpenses(expenses, selected)) == multiset(MonthExpenses(expenses, selected))
    ensures SortedDesc(FilteredExpenses(expenses, selected), DateKey)
    ensures Total(FilteredExpenses(expenses, selected)) == MonthTotal(expenses, selected)
  {
    var month := MonthExpenses(expenses, selected);
    MultisetMembership(FilteredExpenses(expenses, selected), month, e);
    FilterMembership(expenses, (x: Expense) => InMonth(x, selected), e);
    SumPermutation(FilteredExpenses(expenses, selected), month, (x: Expense) => x.amount);
  }

  /** The budget bar is measured against the selected month's total, so
      choosing another month moves it; without a budget it stays at 0. */
  lemma BudgetBarFollowsSelection(expenses: seq<Expense>, selected: MonthKey, budget: real)
    ensures budget > 0.0 ==>
      (BudgetProgress(Total(FilteredExpenses(expenses, selected)), budget) >= 100.0 <==> MonthTotal(expenses, selected) >= budget)
    ensures budget <= 0.0 ==> BudgetProgress(Total(FilteredExpenses(expenses, selected)), budget) == 0.0
  {
    FilteredExpensesMeaning(expenses, selected, Expense("", YMD(2000, 1, 1), "", "", 0.0, None, None));
    BudgetProgressMeaning(Total(FilteredExpenses(expenses, selected)), budget, 100.0);
  }

  /** The expense form, its amount already parsed. */
  datatype ExpenseForm = ExpenseForm(description: string, amount: real, category: string, date: Date)

  /** `handleSubmit`: the expense added carries the form's four fields and
      no link to a recurring expense (the store gives it its id). */
  function SubmitExpense(form: ExpenseForm): (e: Expense)
    ensures e.recurringExpenseId.None? && e.tags.None?
    ensures e.description == form.description && e.amount == form.amount
    ensures e.category == form.category && e.date == form.date
  {
    Expense("", form.date, form.category, form.description, form.amount, None, None)
  }

  /** An expense added on the selected month's page raises the listed total
      by its amount; one dated in another month leaves it alone. */
  lemma SubmitRaisesTotal(expenses: seq<Expense>, form: ExpenseForm, selected: MonthKey)
    ensures MonthTotal(expenses + [SubmitExpense(form)], selected)
      == MonthTotal(expenses, selected) + (if MonthOf(form.date) == selected then form.amount else 0.0)
  {
    MonthTotalAppend(expenses, SubmitExpense(form), selected);
  }
}
