/** Month selection and per-category totals of expenses, shared by the
    budget alerts and the pages. Category totals are kept as a list of
    (category, amount) entries in the order categories first appear, the
    order in which a JavaScript object built by `spending[c] = (spending[c] || 0) + amount`
    lists its keys. */
module Aggregates {
  import opened CivilDate
  import opened Types
  import opened SeqUtil

  /** `e.date.startsWith(monthKey)`. */
  predicate InMonth(e: Expense, month: MonthKey) {
    MonthOf(e.date) == month
  }

  function MonthExpenses(expenses: seq<Expense>, month: MonthKey): seq<Expense> {
    Filter(expenses, (e: Expense) => InMonth(e, month))
  }

  function Total(expenses: seq<Expense>): real {
    Sum(expenses, (e: Expense) => e.amount)
  }

  function OfCategory(expenses: seq<Expense>, c: string): seq<Expense> {
    Filter(expenses, (e: Expense) => e.category == c)
  }

  /** What the expenses of one category add up to. */
  function CategoryTotal(expenses: seq<Expense>, c: string): real {
    Total(OfCategory(expenses, c))
  }

  lemma CategoryTotalAppend(expenses: seq<Expense>, e: Expense, c: string)
    ensures CategoryTotal(expenses + [e], c) == CategoryTotal(expenses, c) + (if e.category == c then e.amount else 0.0)
  {
    FilterAppend(expenses, [e], (x: Expense) => x.category == c);
    SumAppend(OfCategory(expenses, c), OfCategory([e], c), (x: Expense) => x.amount);
    assert [e][..0] == [];
  }

  lemma TotalAppend(expenses: seq<Expense>, e: Expense)
    ensures Total(expenses + [e]) == Total(expenses) + e.amount
  {
    SumAppend(expenses, [e], (x: Expense) => x.amount);
    assert [e][..0] == [];
  }

  /** What the expenses of one month add up to. */
  function MonthTotal(expenses: seq<Expense>, month: MonthKey): real {
    Total(MonthExpenses(expenses, month))
  }

  lemma MonthTotalAppend(expenses: seq<Expense>, e: Expense, month: MonthKey)
    ensures MonthTotal(expenses + [e], month) == MonthTotal(expenses, month) + (if InMonth(e, month) then e.amount else 0.0)
  {
    FilterAppend(expenses, [e], (x: Expense) => InMonth(x, month));
    SumAppend(MonthExpenses(expenses, month), MonthExpenses([e], month), (x: Expense) => x.amount);
    assert [e][..0] == [];
  }

  datatype CategoryAmount = CategoryAmount(category: string, amount: real)

  function Amount(x: CategoryAmount): real {
    x.amount
  }

  /** The entry of a category, or -1 when the category has none. */
  function IndexOfCategory(r: seq<CategoryAmount>, c: string): (i: int)
    ensures -1 <= i < |r|
    ensures i >= 0 ==> r[i].category == c && forall j :: 0 <= j < i ==> r[j].category != c
    ensures i == -1 ==> forall j :: 0 <= j < |r| ==> r[j].category != c
    decreases |r|
  {
    if r == [] then -1
    else if r[0].category == c then 0
    else
      var k := IndexOfCategory(r[1..], c);
      if k == -1 then -1 else k + 1
  }

  /** `spending[c] || 0`. */
  function Lookup(r: seq<CategoryAmount>, c: string): real {
    var i := IndexOfCategory(r, c);
    if i >= 0 then r[i].amount else 0.0
  }

  /** `spending[c] = (spending[c] || 0) + a`. */
  function Bump(r: seq<CategoryAmount>, c: string, a: real): seq<CategoryAmount> {
    var i := IndexOfCategory(r, c);
    if i >= 0 then r[i := CategoryAmount(c, r[i].amount + a)] else r + [CategoryAmount(c, a)]
  }

  /** The totals the loop over `expenses` builds. */
  function CategoryTotals(expenses: seq<Expense>): seq<CategoryAmount> {
    if expenses == [] then []
    else
      var e := expenses[|expenses| - 1];
      Bump(CategoryTotals(expenses[..|expenses| - 1]), e.category, e.amount)
  }

  predicate DistinctCategories(r: seq<CategoryAmount>) {
    forall i, j :: 0 <= i < j < |r| ==> r[i].category != r[j].category
  }

  predicate HasCategory(expenses: seq<Expense>, c: string) {
    exists i :: 0 <= i < |expenses| && expenses[i].category == c
  }

  /** The loop of the budget page and the budget alerts:
      `expenses.forEach(e => spending[e.category] = (spending[e.category] || 0) + e.amount)`. */
  method SumByCategory(expenses: seq<Expense>) returns (spending: seq<CategoryAmount>)
    ensures spending == CategoryTotals(expenses)
    ensures DistinctCategories(spending)
    ensures forall c :: Lookup(spending, c) == CategoryTotal(expenses, c)
    ensures Sum(spending, Amount) == Total(expenses)
  {
    spending := [];
    var i := 0;
    while i < |expenses|
      invariant 0 <= i <= |expenses|
      invariant spending == CategoryTotals(expenses[..i])
    {
      assert expenses[..i + 1][..i] == expenses[..i];
      var e := expenses[i];
      spending := Bump(spending, e.category, e.amount);
      i := i + 1;
    }
    assert expenses[..i] == expenses;
    CategoryTotalsDistinct(expenses);
    CategoryTotalsSum(expenses);
    forall c
      ensures Lookup(spending, c) == CategoryTotal(expenses, c)
    {
      CategoryTotalsLookup(expenses, c);
    }
  }

  lemma BumpLookup(r: seq<CategoryAmount>, k: string, a: real, c: string)
    ensures Lookup(Bump(r, k, a), c) == Lookup(r, c) + (if k == c then a else 0.0)
  {
    var i := IndexOfCategory(r, k);
    var b := Bump(r, k, a);
    if i >= 0 {
      if k != c {
        var j := IndexOfCategory(r, c);
        assert IndexOfCategory(b, c) == j by {
          assert forall m :: 0 <= m < |b| ==> b[m].category == r[m].category;
          IndexOfCategorySameKeys(r, b, c);
        }
      } else {
        assert IndexOfCategory(b, c) == i by {
          assert forall m :: 0 <= m < |b| ==> b[m].category == r[m].category;
          IndexOfCategorySameKeys(r, b, c);
        }
      }
    } else {
      assert forall m :: 0 <= m < |r| ==> b[m] == r[m];
      if k != c {
        IndexOfCategoryAppend(r, CategoryAmount(k, a), c);
      } else {
        IndexOfCategoryAppend(r, CategoryAmount(k, a), c);
      }
    }
  }

  lemma {:induction false} IndexOfCategorySameKeys(r: seq<CategoryAmount>, s: seq<CategoryAmount>, c: string)
    requires |r| == |s| && forall m :: 0 <= m < |r| ==> r[m].category == s[m].category
    ensures IndexOfCategory(r, c) == IndexOfCategory(s, c)
    decreases |r|
  {
    if r != [] && r[0].category != c {
      IndexOfCategorySameKeys(r[1..], s[1..], c);
    }
  }

  lemma {:induction false} IndexOfCategoryAppend(r: seq<CategoryAmount>, x: CategoryAmount, c: string)
    ensures IndexOfCategory(r + [x], c) ==
      (if IndexOfCategory(r, c) >= 0 then IndexOfCategory(r, c) else if x.category == c then |r| else -1)
    decreases |r|
  {
    if r != [] {
      assert (r + [x])[1..] == r[1..] + [x];
      IndexOfCategoryAppend(r[1..], x, c);
    }
  }

  lemma SumUpdate(r: seq<CategoryAmount>, i: int, x: CategoryAmount)
    requires 0 <= i < |r|
    ensures Sum(r[i := x], Amount) == Sum(r, Amount) - r[i].amount + x.amount
  {
    assert r == r[..i] + [r[i]] + r[i + 1..];
    assert r[i := x] == r[..i] + [x] + r[i + 1..];
    SumAppend(r[..i] + [r[i]], r[i + 1..], Amount);
    SumAppend(r[..i], [r[i]], Amount);
    SumAppend(r[..i] + [x], r[i + 1..], Amount);
    SumAppend(r[..i], [x], Amount);
    assert [x][..0] == [] && [r[i]][..0] == [];
  }

  lemma BumpSum(r: seq<CategoryAmount>, k: string, a: real)
    ensures Sum(Bump(r, k, a), Amount) == Sum(r, Amount) + a
  {
    var i := IndexOfCategory(r, k);
    if i >= 0 {
      SumUpdate(r, i, CategoryAmount(k, r[i].amount + a));
    } else {
      var x := CategoryAmount(k, a);
      SumAppend(r, [x], Amount);
      assert [x][..0] == [];
    }
  }

  /** Each category's entry holds that category's total (0 when it has none). */
  lemma {:induction false} CategoryTotalsLookup(expenses: seq<Expense>, c: string)
    ensures Lookup(CategoryTotals(expenses), c) == CategoryTotal(expenses, c)
    decreases |expenses|
  {
    if expenses != [] {
      var pre := expenses[..|expenses| - 1];
      var e := expenses[|expenses| - 1];
      assert expenses == pre + [e];
      CategoryTotalsLookup(pre, c);
      BumpLookup(CategoryTotals(pre), e.category, e.amount, c);
      CategoryTotalAppend(pre, e, c);
    }
  }

  /** A category has an entry exactly when some expense is in it. */
  lemma {:induction false} CategoryTotalsKeys(expenses: seq<Expense>, c: string)
    ensures IndexOfCategory(CategoryTotals(expenses), c) >= 0 <==> HasCategory(expenses, c)
    decreases |expenses|
  {
    if expenses != [] {
      var pre := expenses[..|expenses| - 1];
      var e := expenses[|expenses| - 1];
      var r := CategoryTotals(pre);
      CategoryTotalsKeys(pre, c);
      if IndexOfCategory(r, e.category) >= 0 {
        IndexOfCategorySameKeys(r, CategoryTotals(expenses), c);
      } else {
        IndexOfCategoryAppend(r, CategoryAmount(e.category, e.amount), c);
      }
      if HasCategory(expenses, c) && c != e.category {
        var j :| 0 <= j < |expenses| && expenses[j].category == c;
        assert pre[j].category == c;
      }
    }
  }

  /** No category has two entries. */
  lemma {:induction false} CategoryTotalsDistinct(expenses: seq<Expense>)
    ensures DistinctCategories(CategoryTotals(expenses))
    decreases |expenses|
  {
    if expenses != [] {
      var pre := expenses[..|expenses| - 1];
      var e := expenses[|expenses| - 1];
      CategoryTotalsDistinct(pre);
    }
  }

  /** The entries add up to the total of all the expenses. */
  lemma {:induction false} CategoryTotalsSum(expenses: seq<Expense>)
    ensures Sum(CategoryTotals(expenses), Amount) == Total(expenses)
    decreases |expenses|
  {
    if expenses != [] {
      var pre := expenses[..|expenses| - 1];
      var e := expenses[|expenses| - 1];
      assert expenses == pre + [e];
      CategoryTotalsSum(pre);
      BumpSum(CategoryTotals(pre), e.category, e.amount);
      TotalAppend(pre, e);
    }
  }

  /** `budgetProgress` on the dashboard and the expenses page: the month's
      spending as a percentage of the monthly budget, 0 without a budget. */
  function BudgetProgress(spent: real, budget: real): real {
    if budget > 0.0 then spent / budget * 100.0 else 0.0
  }

  /** With a budget, the progress passes t percent exactly when the spending
      passes t hundredths of the budget (100 percent: the whole budget);
      without one it stays at 0 whatever is spent. */
  lemma BudgetProgressMeaning(spent: real, budget: real, t: real)
    ensures budget > 0.0 ==> (BudgetProgress(spent, budget) > t <==> spent * 100.0 > t * budget)
    ensures budget > 0.0 ==> (BudgetProgress(spent, budget) >= 100.0 <==> spent >= budget)
    ensures budget <= 0.0 ==> BudgetProgress(spent, budget) == 0.0
  {
    if budget > 0.0 {
      var q := spent / budget;
      assert q * budget == spent;
      assert BudgetProgress(spent, budget) == q * 100.0;
      assert q * 100.0 > t <==> q * 100.0 * budget > t * budget;
      assert q >= 1.0 <==> q * budget >= budget;
    }
  }
}
