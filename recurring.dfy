/** The recurring-expense generator: every active template whose next due
    date has arrived produces one expense dated on that due date and moves on
    by one period. */
module Recurring {
  import opened CivilDate
  import opened Types
  import SeqUtil

  /** `rec.isActive && nextDue <= today`. */
  predicate IsDue(rec: RecurringExpense, today: Date) {
    rec.isActive && OnOrBefore(rec.nextDueDate, today)
  }

  /** The `switch (rec.frequency)`: one period later, or unchanged for a
      frequency that falls through to `default` (one-time). */
  function Advance(f: Frequency, d: Date): Date {
    match f
    case Weekly => AddDays(d, 7)
    case BiWeekly => AddDays(d, 14)
    case Monthly => AddMonthsJs(d, 1)
    case Yearly => AddYearsJs(d, 1)
    case OneTime => d
  }

  /** The expense a due template produces. */
  function Materialize(rec: RecurringExpense, id: Id): (e: Expense)
    ensures e.recurringExpenseId == Some(rec.id) && e.date == rec.nextDueDate
  {
    Expense(id := id, date := rec.nextDueDate, category := rec.category,
      description := rec.description, amount := rec.amount, tags := rec.tags,
      recurringExpenseId := Some(rec.id))
  }

  /** A due template after it has produced its expense. */
  function Advanced(rec: RecurringExpense, today: Date): RecurringExpense {
    rec.(lastGeneratedDate := Some(today), nextDueDate := Advance(rec.frequency, rec.nextDueDate))
  }

  /** The template a call leaves behind. */
  function StepTemplate(rec: RecurringExpense, today: Date): RecurringExpense {
    if IsDue(rec, today) then Advanced(rec, today) else rec
  }

  /** What one call returns for `recs`: the updated templates and the new
      expenses, in template order; the k-th generated id is `freshId(k)`. */
  function Process(recs: seq<RecurringExpense>, today: Date, freshId: nat -> Id): (r: (seq<RecurringExpense>, seq<Expense>))
    ensures |r.0| == |recs|
  {
    if recs == [] then ([], [])
    else
      var prev := Process(recs[..|recs| - 1], today, freshId);
      var rec := recs[|recs| - 1];
      if IsDue(rec, today) then (prev.0 + [Advanced(rec, today)], prev.1 + [Materialize(rec, freshId(|prev.1|))])
      else (prev.0 + [rec], prev.1)
  }

  function DueTemplates(recs: seq<RecurringExpense>, today: Date): seq<RecurringExpense> {
    SeqUtil.Filter(recs, (rec: RecurringExpense) => IsDue(rec, today))
  }

  /** The templates keep their number and order; each is stepped on its own. */
  lemma {:induction false} ProcessTemplates(recs: seq<RecurringExpense>, today: Date, freshId: nat -> Id)
    ensures forall i :: 0 <= i < |recs| ==> Process(recs, today, freshId).0[i] == StepTemplate(recs[i], today)
    decreases |recs|
  {
    if recs != [] {
      ProcessTemplates(recs[..|recs| - 1], today, freshId);
    }
  }

  /** Exactly one expense per due template, in template order, built from
      that template and carrying the next fresh id. */
  lemma {:induction false} ProcessExpenses(recs: seq<RecurringExpense>, today: Date, freshId: nat -> Id)
    ensures var es := Process(recs, today, freshId).1;
      var due := DueTemplates(recs, today);
      |es| == |due| && forall j :: 0 <= j < |es| ==> es[j] == Materialize(due[j], freshId(j))
    decreases |recs|
  {
    if recs != [] {
      ProcessExpenses(recs[..|recs| - 1], today, freshId);
    }
  }

  /** Each period moves the due date forward by the stated amount; a
      one-time template does not move. */
  lemma AdvanceByFrequency(d: Date)
    ensures DayNumber(Advance(Weekly, d)) == DayNumber(d) + 7
    ensures DayNumber(Advance(BiWeekly, d)) == DayNumber(d) + 14
    ensures Before(d, Advance(Monthly, d)) && Before(d, Advance(Yearly, d))
    ensures Advance(OneTime, d) == d
  {
    AddDaysNumber(d, 7);
    AddDaysNumber(d, 14);
    AddMonthsJsLater(d, 1);
    AddYearsJsLater(d, 1);
  }

  /** A one-time template is still due after it has produced its expense,
      so every later call produces another one. */
  lemma OneTimeFiresAgain(rec: RecurringExpense, today: Date)
    requires IsDue(rec, today) && rec.frequency == OneTime
    ensures IsDue(StepTemplate(rec, today), today)
    ensures StepTemplate(rec, today).nextDueDate == rec.nextDueDate
  {
  }

  /** Any other due template moves strictly later and records today. */
  lemma PeriodicAdvances(rec: RecurringExpense, today: Date)
    requires IsDue(rec, today) && rec.frequency != OneTime
    ensures Before(rec.nextDueDate, StepTemplate(rec, today).nextDueDate)
    ensures StepTemplate(rec, today).lastGeneratedDate == Some(today)
  {
    AdvanceByFrequency(rec.nextDueDate);
    if rec.frequency == Weekly || rec.frequency == BiWeekly {
      DayNumberOrder(rec.nextDueDate, StepTemplate(rec, today).nextDueDate);
    }
  }

  /** Only one period per call: a weekly template three weeks behind is
      still due after one call and has produced one expense. */
  lemma OnePeriodPerCall()
    ensures var rec := RecurringExpense("r", "Gym", 20.0, "Health", Weekly,
        YMD(2024, 1, 1), YMD(2024, 1, 1), None, true, None);
      var today: Date := YMD(2024, 1, 22);
      var r := Process([rec], today, k => "e");
      |r.1| == 1 && r.0[0].nextDueDate == YMD(2024, 1, 8) && IsDue(r.0[0], today)
  {
    var d: Date := YMD(2024, 1, 1);
    assert AddDays(d, 7) == YMD(2024, 1, 8);
  }

  /** Monthly advance on the 31st overflows like `setMonth`: 31 January 2024
      is followed by 2 March 2024, as February 2024 has 29 days. */
  lemma MonthlyOverflow()
    ensures Advance(Monthly, YMD(2024, 1, 31)) == YMD(2024, 3, 2)
  {
    var d: Date := YMD(2024, 1, 31);
    assert MonthIndex(MonthOf(d)) + 1 == 24289;
    assert MonthFromIndex(24289) == YM(2024, 2);
    assert MonthFromIndex(24290) == YM(2024, 3);
    NormalizeShape(YM(2024, 2), 31);
  }
}
