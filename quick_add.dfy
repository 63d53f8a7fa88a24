/** The quick-add dialog: a description, an amount and a category, added
    as an expense dated today. A blank or unreadable amount is `None`. */
module QuickAdd {
  import opened CivilDate
  import opened Types
  import opened Aggregates
  import opened Store

  const DEFAULT_CATEGORY := "Other"

  /** The expense a submission adds, before the store gives it its id. */
  function QuickExpense(description: string, amount: real, category: string, today: Date): (e: Expense)
    ensures e.date == today && e.description == description && e.amount == amount && e.category == category
    ensures e.tags.None? && e.recurringExpenseId.None?
  {
    Expense("", today, category, description, amount, None, None)
  }

  /** A quick-added expense counts in the current month's spending, at its
      full amount. */
  lemma QuickAddRaisesMonthTotal(expenses: seq<Expense>, description: string, amount: real, category: string,
      today: Date, newId: Id)
    ensures MonthTotal(expenses + [QuickExpense(description, amount, category, today).(id := newId)], MonthOf(today))
      == MonthTotal(expenses, MonthOf(today)) + amount
  {
    MonthTotalAppend(expenses, QuickExpense(description, amount, category, today).(id := newId), MonthOf(today));
  }

  class QuickAddState {
    var description: string
    var amount: Option<real>
    var category: string
    var open: bool

    /** The category is one the select offers. */
    predicate Valid()
      reads this
    {
      category in CATEGORIES
    }

    constructor()
      ensures Valid() && description == "" && amount.None? && category == DEFAULT_CATEGORY && !open
    {
      description := "";
      amount := None;
      category := DEFAULT_CATEGORY;
      open := false;
    }

    method SetDescription(text: string)
      modifies this`description
      ensures description == text
    {
      description := text;
    }

    method SetAmount(value: Option<real>)
      modifies this`amount
      ensures amount == value
    {
      amount := value;
    }

    method SetCategory(c: string)
      requires c in CATEGORIES
      modifies this`category
      ensures Valid() && category == c
    {
      category := c;
    }

    /** Closing or cancelling keeps what was typed. */
    method Close()
      modifies this`open
      ensures !open
    {
      open := false;
    }

    /** `handleSubmit`: nothing happens without a description and an
        amount; otherwise the expense is added, dated today, and the form
        resets and closes. */
    method HandleSubmit(store: AppStore, today: Date, newId: Id)
      requires Valid()
      modifies this, store`expenses
      ensures Valid()
      ensures old(description) == "" || old(amount).None? ==>
        store.expenses == old(store.expenses) && description == old(description) && amount == old(amount)
        && category == old(category) && open == old(open)
      ensures old(description) != "" && old(amount).Some? ==>
        store.expenses == old(store.expenses) + [QuickExpense(old(description), old(amount).value, old(category), today).(id := newId)]
        && description == "" && amount.None? && category == DEFAULT_CATEGORY && !open
    {
      if description == "" || amount.None? {
        return;
      }
      store.AddExpense(QuickExpense(description, amount.value, category, today), newId);
      description := "";
      amount := None;
      category := DEFAULT_CATEGORY;
      open := false;
    }
  }
}
