/** The calendar page: the records grouped by day, the month grid, the
    day's net, and moving between months. */
module CalendarPage {
  import opened CivilDate
  import opened Types
  import opened SeqUtil

  datatype ExpenseEntry = ExpenseEntry(description: string, amount: real, category: string)
  datatype IncomeEntry = IncomeEntry(sourceName: string, amount: real)
  datatype BillEntry = BillEntry(name: string, amount: real, status: BillStatus)
  datatype SubscriptionEntry = SubscriptionEntry(name: string, amount: real)

  /** What the calendar keeps for one day. */
  datatype DayData = DayData(date: Date, expenses: seq<ExpenseEntry>, income: seq<IncomeEntry>,
    bills: seq<BillEntry>, subscriptions: seq<SubscriptionEntry>)

  function ToExpenseEntry(e: Expense): ExpenseEntry {
    ExpenseEntry(e.description, e.amount, e.category)
  }

  function ToIncomeEntry(i: Income): IncomeEntry {
    IncomeEntry(i.sourceName, i.amount)
  }

  /** A bill shows its amount due. */
  function ToBillEntry(b: Bill): BillEntry {
    BillEntry(b.name, b.amountDue, b.status)
  }

  function ToSubscriptionEntry(s: Subscription): SubscriptionEntry {
    SubscriptionEntry(s.name, s.amount)
  }

  function ExpenseDate(e: Expense): Date { e.date }
  function IncomeDate(i: Income): Date { i.nextExpectedDate }
  function BillDate(b: Bill): Date { b.dueDate }
  function SubscriptionDate(s: Subscription): Date { s.nextBillingDate }

  /** The entries of the records dated `d`, in the records' order. */
  function Grouped<T, E>(xs: seq<T>, dateOf: T -> Date, entry: T -> E, d: Date): seq<E> {
    if xs == [] then []
    else (Grouped(xs[..|xs| - 1], dateOf, entry, d)
      + (if dateOf(xs[|xs| - 1]) == d then [entry(xs[|xs| - 1])] else []))
  }

  /** The records dated `d`. */
  function DatedOn<T>(xs: seq<T>, dateOf: T -> Date, d: Date): seq<T> {
    Filter(xs, (x: T) => dateOf(x) == d)
  }

  /** A day's entries summed are the records dated that day summed. */
  lemma {:induction false} GroupedSum<T, E>(xs: seq<T>, dateOf: T -> Date, entry: T -> E, d: Date,
                                           amount: E -> real, value: T -> real)
    requires forall x :: amount(entry(x)) == value(x)
    ensures Sum(Grouped(xs, dateOf, entry, d), amount) == Sum(DatedOn(xs, dateOf, d), value)
    decreases |xs|
  {
    if xs != [] {
      var pre, x := xs[..|xs| - 1], xs[|xs| - 1];
      GroupedSum(pre, dateOf, entry, d, amount, value);
      SumAppend(Grouped(pre, dateOf, entry, d), if dateOf(x) == d then [entry(x)] else [], amount);
      if dateOf(x) == d {
        assert [entry(x)][..0] == [];
      }
    }
  }

  /** The day `d` as the calendar should hold it: each record under its own
      date (income under its next expected date, bills under their due date,
      subscriptions under their next billing date). */
  function DaySpec(expenses: seq<Expense>, income: seq<Income>, bills: seq<Bill>,
                   subscriptions: seq<Subscription>, d: Date): DayData {
    DayData(d, Grouped(expenses, ExpenseDate, ToExpenseEntry, d), Grouped(income, IncomeDate, ToIncomeEntry, d),
      Grouped(bills, BillDate, ToBillEntry, d), Grouped(subscriptions, SubscriptionDate, ToSubscriptionEntry, d))
  }

  /** `hasData`. */
  predicate HasEntries(day: DayData) {
    day.expenses != [] || day.income != [] || day.bills != [] || day.subscriptions != []
  }

  /** `data` holds exactly the days on which the records fall, each as `DaySpec` has it. */
  ghost predicate Grouping(data: map<Date, DayData>, expenses: seq<Expense>, income: seq<Income>, bills: seq<Bill>,
                     subscriptions: seq<Subscription>) {
    forall d ::
      (d in data <==> HasEntries(DaySpec(expenses, income, bills, subscriptions, d))) &&
      (d in data ==> data[d] == DaySpec(expenses, income, bills, subscriptions, d))
  }

  function EmptyDay(d: Date): DayData {
    DayData(d, [], [], [], [])
  }

  /** `calendarData`: the four kinds of record pushed, one loop each, into
      the entry of their date, the entry created on first use. A date has an
      entry exactly when some record is dated on it, and the entry holds
      every such record's details in order. */
  method CalendarData(expenses: seq<Expense>, income: seq<Income>, bills: seq<Bill>, subscriptions: seq<Subscription>)
    returns (data: map<Date, DayData>)
    ensures Grouping(data, expenses, income, bills, subscriptions)
  {
    data := AddExpenses(expenses);
    data := AddIncome(data, expenses, income);
    data := AddBills(data, expenses, income, bills);
    data := AddSubscriptions(data, expenses, income, bills, subscriptions);
  }

  /** The expenses loop, starting from the empty record. */
  method AddExpenses(expenses: seq<Expense>) returns (data: map<Date, DayData>)
    ensures Grouping(data, expenses, [], [], [])
  {
    data := map[];
    for i := 0 to |expenses|
      invariant Grouping(data, expenses[..i], [], [], [])
    {
      var e := expenses[i];
      var day := if e.date in data then data[e.date] else EmptyDay(e.date);
      data := data[e.date := day.(expenses := day.expenses + [ToExpenseEntry(e)])];
      assert expenses[..i + 1][..i] == expenses[..i];
    }
    assert expenses[..|expenses|] == expenses;
  }

  /** The income loop, each item under its next expected date. */
  method AddIncome(data0: map<Date, DayData>, expenses: seq<Expense>, income: seq<Income>) returns (data: map<Date, DayData>)
    requires Grouping(data0, expenses, [], [], [])
    ensures Grouping(data, expenses, income, [], [])
  {
    data := data0;
    for i := 0 to |income|
      invariant Grouping(data, expenses, income[..i], [], [])
    {
      var inc := income[i];
      var d0 := inc.nextExpectedDate;
      var day := if d0 in data then data[d0] else EmptyDay(d0);
      data := data[d0 := day.(income := day.income + [ToIncomeEntry(inc)])];
      assert income[..i + 1][..i] == income[..i];
    }
    assert income[..|income|] == income;
  }

  /** The bills loop, each bill under its due date. */
  method AddBills(data0: map<Date, DayData>, expenses: seq<Expense>, income: seq<Income>, bills: seq<Bill>)
    returns (data: map<Date, DayData>)
    requires Grouping(data0, expenses, income, [], [])
    ensures Grouping(data, expenses, income, bills, [])
  {
    data := data0;
    for i := 0 to |bills|
      invariant Grouping(data, expenses, income, bills[..i], [])
    {
      var b := bills[i];
      var day := if b.dueDate in data then data[b.dueDate] else EmptyDay(b.dueDate);
      data := data[b.dueDate := day.(bills := day.bills + [ToBillEntry(b)])];
      assert bills[..i + 1][..i] == bills[..i];
    }
    assert bills[..|bills|] == bills;
  }

  /** The subscriptions loop, each under its next billing date. */
  method AddSubscriptions(data0: map<Date, DayData>, expenses: seq<Expense>, income: seq<Income>, bills: seq<Bill>,
                          subscriptions: seq<Subscription>) returns (data: map<Date, DayData>)
    requires Grouping(data0, expenses, income, bills, [])
    ensures Grouping(data, expenses, income, bills, subscriptions)
  {
    data := data0;
    for i := 0 to |subscriptions|
      invariant Grouping(data, expenses, income, bills, subscriptions[..i])
    {
      var s := subscriptions[i];
      var d0 := s.nextBillingDate;
      var day := if d0 in data then data[d0] else EmptyDay(d0);
      data := data[d0 := day.(subscriptions := day.subscriptions + [ToSubscriptionEntry(s)])];
      assert subscriptions[..i + 1][..i] == subscriptions[..i];
    }
    assert subscriptions[..|subscriptions|] == subscriptions;
  }

  function ExpenseAmount(e: ExpenseEntry): real { e.amount }
  function IncomeAmount(i: IncomeEntry): real { i.amount }
  function BillAmount(b: BillEntry): real { b.amount }
  function SubscriptionAmount(s: SubscriptionEntry): real { s.amount }

  /** The day summary's net: what comes in less what goes out. */
  function DayNet(day: DayData): real {
    Sum(day.income, IncomeAmount)
      - (Sum(day.expenses, ExpenseAmount) + Sum(day.bills, BillAmount) + Sum(day.subscriptions, SubscriptionAmount))
  }

  function ExpenseValue(e: Expense): real { e.amount }
  function IncomeValue(i: Income): real { i.amount }
  function BillValue(b: Bill): real { b.amountDue }
  function SubscriptionValue(s: Subscription): real { s.amount }

  /** The net of a day is the income expected that day less the expenses
      dated, the amounts due on the bills due and the subscriptions billed
      that day. */
  lemma DayNetMeaning(expenses: seq<Expense>, income: seq<Income>, bills: seq<Bill>,
                      subscriptions: seq<Subscription>, d: Date)
    ensures DayNet(DaySpec(expenses, income, bills, subscriptions, d))
      == Sum(DatedOn(income, IncomeDate, d), IncomeValue)
       - (Sum(DatedOn(expenses, ExpenseDate, d), ExpenseValue) + Sum(DatedOn(bills, BillDate, d), BillValue)
        + Sum(DatedOn(subscriptions, SubscriptionDate, d), SubscriptionValue))
  {
    GroupedSum(income, IncomeDate, ToIncomeEntry, d, IncomeAmount, IncomeValue);
    GroupedSum(expenses, ExpenseDate, ToExpenseEntry, d, ExpenseAmount, ExpenseValue);
    GroupedSum(bills, BillDate, ToBillEntry, d, BillAmount, BillValue);
    GroupedSum(subscriptions, SubscriptionDate, ToSubscriptionEntry, d, SubscriptionAmount, SubscriptionValue);
  }

  /** `calendarDays`: blank cells up to the weekday of the first, then the
      days of the month in order. */
  method CalendarDays(k: MonthKey) returns (days: seq<Option<int>>)
    ensures |days| == Weekday(FirstOfMonth(k)) + DaysInMonth(k.year, k.month)
    ensures forall i :: 0 <= i < Weekday(FirstOfMonth(k)) ==> days[i].None?
    ensures forall i :: Weekday(FirstOfMonth(k)) <= i < |days| ==> days[i] == Some(i - Weekday(FirstOfMonth(k)) + 1)
  {
    var start := Weekday(FirstOfMonth(k));
    var daysInMonth := DaysInMonth(k.year, k.month);
    days := [];
    for i := 0 to start
      invariant |days| == i
      invariant forall j :: 0 <= j < i ==> days[j].None?
    {
      days := days + [None];
    }
    for i := 1 to daysInMonth + 1
      invariant |days| == start + i - 1
      invariant forall j :: 0 <= j < start ==> days[j].None?
      invariant forall j :: start <= j < |days| ==> days[j] == Some(j - start + 1)
    {
      days := days + [Some(i)];
    }
  }

  /** `getDayKey`: the date of a day of the displayed month. */
  function DayKey(k: MonthKey, day: int): Date
    requires 1 <= day <= DaysInMonth(k.year, k.month)
  {
    YMD(k.year, k.month, day)
  }

  /** Every numbered cell of the grid is a day of the displayed month, and
      the cell of day `n` is at position weekday-of-the-first + n - 1. */
  lemma GridCellsAreDays(k: MonthKey, days: seq<Option<int>>, i: int)
    requires |days| == Weekday(FirstOfMonth(k)) + DaysInMonth(k.year, k.month)
    requires forall j :: 0 <= j < Weekday(FirstOfMonth(k)) ==> days[j].None?
    requires forall j :: Weekday(FirstOfMonth(k)) <= j < |days| ==> days[j] == Some(j - Weekday(FirstOfMonth(k)) + 1)
    requires 0 <= i < |days| && days[i].Some?
    ensures 1 <= days[i].value <= DaysInMonth(k.year, k.month)
    ensures MonthOf(DayKey(k, days[i].value)) == k
    ensures i == Weekday(FirstOfMonth(k)) + days[i].value - 1
  {
  }

  /** `navigateMonth` as written: `setMonth` on the displayed date, which is
      today's date when the page opens, so the day of the month is kept and
      may overflow into the month after the target. */
  function NavigateAsWritten(current: Date, direction: int): Date {
    AddMonthsJs(current, direction)
  }

  /** Day 30 or 31 of February does not exist and spills into March. */
  lemma FebruaryOverflow(y: int, day: int)
    requires 30 <= day <= 31
    ensures MonthOf(Normalize(YM(y, 2), day)) == YM(y, 3)
  {
    NormalizeShape(YM(y, 2), day);
    MonthIndexInjective(MonthFromIndex(MonthIndex(YM(y, 2)) + 1), YM(y, 3));
  }

  /** On the 30th or 31st of January "next" shows March, skipping February,
      and on the 30th or 31st of March "previous" stays on March. */
  lemma NavigateAsWrittenSkips(jan: Date, mar: Date)
    requires jan.month == 1 && jan.day >= 30
    requires mar.month == 3 && mar.day >= 30
    ensures MonthOf(NavigateAsWritten(jan, 1)) == YM(jan.year, 3)
    ensures MonthOf(NavigateAsWritten(mar, -1)) == YM(mar.year, 3)
  {
    MonthIndexInjective(MonthFromIndex(MonthIndex(MonthOf(jan)) + 1), YM(jan.year, 2));
    MonthIndexInjective(MonthFromIndex(MonthIndex(MonthOf(mar)) - 1), YM(mar.year, 2));
    FebruaryOverflow(jan.year, jan.day);
    FebruaryOverflow(mar.year, mar.day);
  }

  /** `navigateMonth` as intended: the displayed month moves by exactly
      `direction` months, whatever the day. */
  function NavigateMonth(k: MonthKey, direction: int): (r: MonthKey)
    ensures MonthIndex(r) == MonthIndex(k) + direction
  {
    MonthFromIndex(MonthIndex(k) + direction)
  }

  /** Next then previous comes back to the same month, and the month shown
      after "next" always follows the current one. */
  lemma NavigateRoundTrip(k: MonthKey)
    ensures NavigateMonth(NavigateMonth(k, 1), -1) == k
    ensures NavigateMonth(k, 1) == (if k.month == 12 then YM(k.year + 1, 1) else YM(k.year, k.month + 1))
  {
    MonthIndexInjective(NavigateMonth(NavigateMonth(k, 1), -1), k);
    var n: MonthKey := if k.month == 12 then YM(k.year + 1, 1) else YM(k.year, k.month + 1);
    MonthIndexInjective(NavigateMonth(k, 1), n);
  }
}
