/** The dashboard: this month's bills, the monthly cost of subscriptions,
    the bills due within a week, the latest expenses, the budget bar and
    the greeting. Its monthly income, monthly expenses, savings and loan
    totals are the income, aggregate, savings and loans pages' own. */
module Dashboard {
  import opened CivilDate
  import opened Types
  import opened SeqUtil
  import opened Aggregates

  /** `billsSummary`: the month's bills, how much of them is due, how much
      was paid and how many are paid. */
  datatype BillsSummary = BillsSummary(total: real, paid: real, count: nat, paidCount: nat)

  predicate DueInMonth(b: Bill, month: MonthKey) {
    MonthOf(b.dueDate) == month
  }

  predicate IsPaid(b: Bill) {
    b.status == Paid
  }

  /** `b.amountPaid || b.amountDue`: a missing or zero amount paid counts as
      the amount due. */
  function PaidValue(b: Bill): real {
    if b.amountPaid.Some? && b.amountPaid.value != 0.0 then b.amountPaid.value else b.amountDue
  }

  function MonthBills(bills: seq<Bill>, month: MonthKey): seq<Bill> {
    Filter(bills, (b: Bill) => DueInMonth(b, month))
  }

  function SummarizeBills(bills: seq<Bill>, month: MonthKey): BillsSummary {
    var monthBills := MonthBills(bills, month);
    var paid := Filter(monthBills, IsPaid);
    BillsSummary(Sum(monthBills, (b: Bill) => b.amountDue), Sum(paid, PaidValue), |monthBills|, |paid|)
  }

  /** No more bills are paid than are due this month, and when no bill was
      paid more than it was due, no more is paid than is due. */
  lemma BillsSummaryBounds(bills: seq<Bill>, month: MonthKey)
    ensures var s := SummarizeBills(bills, month); s.paidCount <= s.count
    ensures (forall b :: b in bills ==> b.amountDue >= 0.0 && PaidValue(b) <= b.amountDue) ==>
      SummarizeBills(bills, month).paid <= SummarizeBills(bills, month).total
  {
    var monthBills := MonthBills(bills, month);
    if forall b :: b in bills ==> b.amountDue >= 0.0 && PaidValue(b) <= b.amountDue {
      forall i | 0 <= i < |monthBills|
        ensures monthBills[i].amountDue >= 0.0 && PaidValue(monthBills[i]) <= monthBills[i].amountDue
      {
        FilterMembership(bills, (b: Bill) => DueInMonth(b, month), monthBills[i]);
      }
      SumFilterBound(monthBills, IsPaid, (b: Bill) => b.amountDue, PaidValue);
    }
  }

  /** A subscription's cost per month: a yearly one counts a twelfth. */
  function MonthlyCost(s: Subscription): real {
    if s.billingCycle == CycleMonthly then s.amount else s.amount / 12.0
  }

  /** What a subscription costs in a year. */
  function YearlyCost(s: Subscription): real {
    if s.billingCycle == CycleMonthly then s.amount * 12.0 else s.amount
  }

  /** `subscriptionsTotal`. */
  function SubscriptionsTotal(subscriptions: seq<Subscription>): real {
    Sum(subscriptions, MonthlyCost)
  }

  /** The monthly total is a twelfth of what the subscriptions cost in a year. */
  lemma SubscriptionsTotalYearly(subscriptions: seq<Subscription>)
    ensures SubscriptionsTotal(subscriptions) * 12.0 == Sum(subscriptions, YearlyCost)
  {
    SumScaled(subscriptions, subscriptions, YearlyCost, MonthlyCost, 12.0);
  }

  /** The bills the dashboard lists as upcoming: not paid, due after today
      (a bill due today is at midnight, before the current time) and no later
      than the same time a week ahead. */
  predicate Upcoming(b: Bill, today: Date) {
    b.status != Paid && Before(today, b.dueDate) && OnOrBefore(b.dueDate, AddDays(today, 7))
  }

  function DueKey(b: Bill): real {
    DayNumber(b.dueDate) as real
  }

  /** `upcomingBills`: the upcoming bills, soonest due first, at most five. */
  function UpcomingBills(bills: seq<Bill>, today: Date): seq<Bill> {
    Take(SortAsc(Filter(bills, (b: Bill) => Upcoming(b, today)), DueKey), 5)
  }

  /** Every bill listed is an upcoming one, soonest first; an upcoming bill
      left off means five are listed, none due later than it. */
  lemma UpcomingBillsMeaning(bills: seq<Bill>, today: Date, b: Bill)
    ensures |UpcomingBills(bills, today)| <= 5
    ensures SortedAsc(UpcomingBills(bills, today), DueKey)
    ensures b in UpcomingBills(bills, today) ==> b in bills && Upcoming(b, today)
    ensures b in bills && Upcoming(b, today) && b !in UpcomingBills(bills, today) ==>
      |UpcomingBills(bills, today)| == 5 &&
      forall i :: 0 <= i < 5 ==> DayNumber(UpcomingBills(bills, today)[i].dueDate) <= DayNumber(b.dueDate)
  {
    var p := (x: Bill) => Upcoming(x, today);
    var s := SortAsc(Filter(bills, p), DueKey);
    FilterMembership(bills, p, b);
    MultisetMembership(s, Filter(bills, p), b);
    if b in bills && Upcoming(b, today) && b !in Take(s, 5) {
      TopOfSortedAsc(s, DueKey, 5, b);
    }
  }

  function DateKey(e: Expense): real {
    DayNumber(e.date) as real
  }

  /** `recentExpenses`: the five latest expenses, latest first. */
  function RecentExpenses(expenses: seq<Expense>): seq<Expense> {
    Take(SortDesc(expenses, DateKey), 5)
  }

  /** The expenses listed are expenses, latest first, at most five; one left
      off means five are listed, none older than it. */
  lemma RecentExpensesMeaning(expenses: seq<Expense>, e: Expense)
    ensures |RecentExpenses(expenses)| == if |expenses| < 5 then |expenses| else 5
    ensures SortedDesc(RecentExpenses(expenses), DateKey)
    ensures e in RecentExpenses(expenses) ==> e in expenses
    ensures e in expenses && e !in RecentExpenses(expenses) ==>
      |RecentExpenses(expenses)| == 5 &&
      forall i :: 0 <= i < 5 ==> DayNumber(RecentExpenses(expenses)[i].date) >= DayNumber(e.date)
  {
    var s := SortDesc(expenses, DateKey);
    MultisetMembership(s, expenses, e);
    if e in expenses && e !in Take(s, 5) {
      TopOfSortedDesc(s, DateKey, 5, e);
    }
  }

  /** The colour of the budget figure and bar: over 100 percent red, over 80
      yellow, else green. */
  datatype Tone = Red | Yellow | Green

  function BudgetTone(progress: real): Tone {
    if progress > 100.0 then Red else if progress > 80.0 then Yellow else Green
  }

  /** With a budget the bar turns red exactly when the spending exceeds the
      budget, and is green exactly up to four fifths of it. */
  lemma BudgetToneMeaning(spent: real, budget: real)
    requires budget > 0.0
    ensures BudgetTone(BudgetProgress(spent, budget)) == Red <==> spent > budget
    ensures BudgetTone(BudgetProgress(spent, budget)) == Green <==> spent * 100.0 <= 80.0 * budget
  {
    BudgetProgressMeaning(spent, budget, 100.0);
    BudgetProgressMeaning(spent, budget, 80.0);
  }

  /** The line under the bar: what remains, or by how much the budget is exceeded. */
  datatype BudgetLine = Remaining(amount: real) | OverBudget(amount: real)

  function BudgetLineOf(spent: real, budget: real): (r: BudgetLine)
    ensures r.amount >= 0.0
    ensures r.Remaining? <==> spent < budget
    ensures r.Remaining? ==> spent + r.amount == budget
    ensures r.OverBudget? ==> spent == budget + r.amount
  {
    if budget - spent > 0.0 then Remaining(budget - spent) else OverBudget(spent - budget)
  }

  /** The greeting names the user when a name is set. */
  function Greeting(userName: string): (g: string)
    ensures userName == "" ==> g == "Welcome back!"
    ensures userName != "" ==> g == "Welcome back, " + userName + "!"
  {
    if userName != "" then "Welcome back, " + userName + "!" else "Welcome back!"
  }
}
