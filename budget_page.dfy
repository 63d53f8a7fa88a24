/** The budget page: this month's spending per category, the category
    budgets kept in the settings, the status of each budget and the list of
    categories with spending but no budget. */
module BudgetPage {
  import opened CivilDate
  import opened Types
  import opened SeqUtil
  import opened JsNumber
  import opened Aggregates

  /** `categorySpending` and `totalSpending`: the per-category totals of the
      month's expenses, in first-seen order, and what they add up to. */
  method CategorySpending(expenses: seq<Expense>, month: MonthKey) returns (spending: seq<CategoryAmount>, total: real)
    ensures DistinctCategories(spending)
    ensures forall c :: Lookup(spending, c) == CategoryTotal(MonthExpenses(expenses, month), c)
    ensures total == Total(MonthExpenses(expenses, month))
  {
    spending := SumByCategory(MonthExpenses(expenses, month));
    total := Sum(spending, Amount);
  }

  /** Whether some budget is set for category `c`. */
  predicate Budgeted(budgets: seq<CategoryBudget>, c: string) {
    exists i :: 0 <= i < |budgets| && budgets[i].category == c
  }

  /** `availableCategories`: the categories, in their fixed order, that have no budget yet. */
  function AvailableCategories(budgets: seq<CategoryBudget>): seq<string> {
    Filter(CATEGORIES, (c: string) => !Budgeted(budgets, c))
  }

  /** A category is offered exactly when it is one of the fixed categories
      and has no budget. */
  lemma AvailableCategoriesMembership(budgets: seq<CategoryBudget>, c: string)
    ensures c in AvailableCategories(budgets) <==> c in CATEGORIES && !Budgeted(budgets, c)
  {
    FilterMembership(CATEGORIES, (c: string) => !Budgeted(budgets, c), c);
  }

  /** `handleSubmit`: when editing the budget of category `editing`, every
      entry of that category is replaced by the new budget; otherwise the new
      budget is appended. */
  function SaveBudget(budgets: seq<CategoryBudget>, editing: Option<string>, nb: CategoryBudget): (r: seq<CategoryBudget>)
    ensures editing.None? ==> r == budgets + [nb]
    ensures editing.Some? ==> |r| == |budgets|
  {
    if editing.Some? then
      seq(|budgets|, i requires 0 <= i < |budgets| =>
        if budgets[i].category == editing.value then nb else budgets[i])
    else budgets + [nb]
  }

  /** `deleteBudget`: every entry of the category is dropped. */
  function DeleteBudget(budgets: seq<CategoryBudget>, category: string): (r: seq<CategoryBudget>)
    ensures !Budgeted(r, category)
    ensures forall b :: b in r <==> b in budgets && b.category != category
  {
    var r := Filter(budgets, (b: CategoryBudget) => b.category != category);
    forall b
      ensures b in r <==> b in budgets && b.category != category
    {
      FilterMembership(budgets, (b: CategoryBudget) => b.category != category, b);
    }
    r
  }

  /** Editing touches only the entries of the edited category: they all
      become the new budget, and every other entry stays where it was. */
  lemma SaveBudgetEdit(budgets: seq<CategoryBudget>, old_: string, nb: CategoryBudget)
    ensures var r := SaveBudget(budgets, Some(old_), nb);
      && (forall i :: 0 <= i < |budgets| && budgets[i].category != old_ ==> r[i] == budgets[i])
      && (forall i :: 0 <= i < |budgets| && budgets[i].category == old_ ==> r[i] == nb)
      && (Budgeted(budgets, old_) ==> nb in r)
      && (!Budgeted(budgets, old_) ==> r == budgets)
  {
    var r := SaveBudget(budgets, Some(old_), nb);
    if Budgeted(budgets, old_) {
      var i :| 0 <= i < |budgets| && budgets[i].category == old_;
      assert r[i] == nb;
    }
  }

  /** Adding a budget for a category that has none and deleting that
      category again gives back the original list; meanwhile the category
      is no longer offered. */
  lemma AddThenDeleteBudget(budgets: seq<CategoryBudget>, nb: CategoryBudget)
    requires !Budgeted(budgets, nb.category)
    ensures DeleteBudget(SaveBudget(budgets, None, nb), nb.category) == budgets
    ensures nb.category !in AvailableCategories(SaveBudget(budgets, None, nb))
  {
    var p := (b: CategoryBudget) => b.category != nb.category;
    FilterAppend(budgets, [nb], p);
    assert Filter([nb], p) == [] by {
      assert [nb][..0] == [];
    }
    FilterKeepsAll(budgets, p);
    var added := SaveBudget(budgets, None, nb);
    assert added[|budgets|] == nb;
    AvailableCategoriesMembership(added, nb.category);
  }

  /** Filtering with a predicate every element satisfies keeps the list. */
  lemma {:induction false} FilterKeepsAll(xs: seq<CategoryBudget>, p: CategoryBudget -> bool)
    requires forall i :: 0 <= i < |xs| ==> p(xs[i])
    ensures Filter(xs, p) == xs
    decreases |xs|
  {
    if xs != [] {
      FilterKeepsAll(xs[..|xs| - 1], p);
      assert xs == xs[..|xs| - 1] + [xs[|xs| - 1]];
    }
  }

  datatype StatusColor = Red | Yellow | Emerald

  /** `getStatusColor`: the unguarded percentage, red from 100, yellow from 80. */
  function GetStatusColor(spent: real, limit: real): StatusColor {
    var percent := Percent(spent, limit);
    if AtLeast(percent, 100.0) then Red
    else if AtLeast(percent, 80.0) then Yellow
    else Emerald
  }

  /** With a positive limit the colour bands are: red once the limit is
      reached, yellow from 80 percent of it, emerald below. With a zero
      limit any spending divides to infinity and is red; no spending
      divides to NaN and is emerald. */
  lemma StatusColorBands(spent: real, limit: real)
    ensures limit > 0.0 ==>
      (GetStatusColor(spent, limit) == Red <==> spent >= limit) &&
      (GetStatusColor(spent, limit) == Yellow <==> 0.8 * limit <= spent < limit)
    ensures limit == 0.0 ==> (GetStatusColor(spent, limit) == Red <==> spent > 0.0)
  {
    if limit > 0.0 {
      PercentPositive(spent, limit, 100.0);
      PercentPositive(spent, limit, 80.0);
    }
  }

  /** What one budget row shows. */
  datatype BudgetRow = BudgetRow(percent: real, isOver: bool, isWarning: bool, remaining: real)

  /** The row of a budget with `spent` already looked up (`|| 0`). */
  function Row(spent: real, limit: real): (row: BudgetRow)
    ensures !(row.isOver && row.isWarning)
    ensures row.remaining >= 0.0 && row.remaining >= limit - spent
    ensures limit <= 0.0 ==> row.percent == 0.0 && !row.isWarning
  {
    var percent := if limit > 0.0 then spent / limit * 100.0 else 0.0;
    var isOver := spent > limit;
    BudgetRow(percent, isOver, percent >= 80.0 && !isOver, if 0.0 > limit - spent then 0.0 else limit - spent)
  }

  /** With a positive limit: over exactly when spending exceeds the limit,
      near the limit from 80 percent up to and including the limit itself,
      and nothing remains exactly when the limit is reached. */
  lemma RowBands(spent: real, limit: real)
    requires limit > 0.0
    ensures Row(spent, limit).isOver <==> spent > limit
    ensures Row(spent, limit).isWarning <==> 0.8 * limit <= spent <= limit
    ensures Row(spent, limit).remaining == 0.0 <==> spent >= limit
  {
    PercentPositive(spent, limit, 80.0);
    assert spent / limit * 100.0 == (spent * 100.0) / limit;
  }

  /** At exactly the limit the bar is red but the badge says "near limit",
      not "over budget". */
  lemma AtTheLimit(limit: real)
    requires limit > 0.0
    ensures GetStatusColor(limit, limit) == Red
    ensures Row(limit, limit).isWarning && !Row(limit, limit).isOver
  {
    StatusColorBands(limit, limit);
    RowBands(limit, limit);
  }

  /** The unbudgeted-spending list: the categories with spending and no
      budget, largest amount first. */
  function Unbudgeted(spending: seq<CategoryAmount>, budgets: seq<CategoryBudget>): (r: seq<CategoryAmount>)
    ensures SortedDesc(r, Amount)
    ensures forall x :: x in r <==> x in spending && !Budgeted(budgets, x.category)
  {
    var p := (x: CategoryAmount) => !Budgeted(budgets, x.category);
    var kept := Filter(spending, p);
    var r := SortDesc(kept, Amount);
    forall x
      ensures x in r <==> x in spending && !Budgeted(budgets, x.category)
    {
      MultisetMembership(r, kept, x);
      FilterMembership(spending, p, x);
    }
    r
  }
}
