/** The analytics page: the time-range filter, the category breakdown, the
    six-month trend and the year-over-year comparison. */
module Analytics {
  import opened CivilDate
  import opened Types
  import opened SeqUtil
  import opened Aggregates

  // ---------------------------------------------------------------------
  // Time range.

  datatype TimeRange = ThisMonth | LastMonth | Last90 | Last6Months | AllTime

  /** `new Date(year, month - 1, 1)`: the month before, across a year boundary. */
  function PreviousMonth(k: MonthKey): (r: MonthKey)
    ensures MonthIndex(r) == MonthIndex(k) - 1
    ensures k.month > 1 ==> r == YM(k.year, k.month - 1)
    ensures k.month == 1 ==> r == YM(k.year - 1, 12)
  {
    MonthFromIndex(MonthIndex(k) - 1)
  }

  /** Whether an expense dated `d` is inside the range on `today`. The two
      month ranges compare month keys. The other three compare with a cutoff
      instant carrying the current time of day, which an expense dated on the
      cutoff day itself (at midnight) falls before: 90 days back, six months
      back with `setMonth` overflow, or the same day in the year 2000. */
  predicate InRange(d: Date, range: TimeRange, today: Date) {
    match range
    case ThisMonth => MonthOf(d) == MonthOf(today)
    case LastMonth => MonthOf(d) == PreviousMonth(MonthOf(today))
    case Last90 => DayNumber(d) > DayNumber(today) - 90
    case Last6Months => Before(AddMonthsJs(today, -6), d)
    case AllTime => Before(AddYearsJs(today, 2000 - today.year), d)
  }

  /** `filteredExpenses`: the expenses in range, in store order. */
  function RangeExpenses(expenses: seq<Expense>, range: TimeRange, today: Date): (r: seq<Expense>)
    ensures forall e :: e in r <==> e in expenses && InRange(e.date, range, today)
  {
    var r := Filter(expenses, (e: Expense) => InRange(e.date, range, today));
    forall e
      ensures e in r <==> e in expenses && InRange(e.date, range, today)
    {
      FilterMembership(expenses, (e: Expense) => InRange(e.date, range, today), e);
    }
    r
  }

  /** The month ranges select by month key only: this month is exactly the
      current month's expenses, and last month in January is the previous
      December. */
  lemma MonthRanges(expenses: seq<Expense>, today: Date)
    ensures RangeExpenses(expenses, ThisMonth, today) == MonthExpenses(expenses, MonthOf(today))
    ensures today.month == 1 ==>
      RangeExpenses(expenses, LastMonth, today) == MonthExpenses(expenses, YM(today.year - 1, 12))
  {
    FilterSame(expenses, (e: Expense) => InRange(e.date, ThisMonth, today), (e: Expense) => InMonth(e, MonthOf(today)));
    if today.month == 1 {
      FilterSame(expenses, (e: Expense) => InRange(e.date, LastMonth, today), (e: Expense) => InMonth(e, YM(today.year - 1, 12)));
    }
  }

  /** Filters by two predicates that agree on every element are equal. */
  lemma {:induction false} FilterSame(xs: seq<Expense>, p: Expense -> bool, q: Expense -> bool)
    requires forall i :: 0 <= i < |xs| ==> p(xs[i]) == q(xs[i])
    ensures Filter(xs, p) == Filter(xs, q)
    decreases |xs|
  {
    if xs != [] {
      FilterSame(xs[..|xs| - 1], p, q);
    }
  }

  // ---------------------------------------------------------------------
  // Category breakdown.

  /** `COLORS.length`. */
  const PALETTE_SIZE: nat := 10

  datatype CategoryDatum = CategoryDatum(name: string, amount: real, percentage: real, color: nat)

  function DatumAmount(d: CategoryDatum): real {
    d.amount
  }

  function DatumPercentage(d: CategoryDatum): real {
    d.percentage
  }

  /** The share of `amount` in `total`, 0 when there is no total. */
  function Share(amount: real, total: real): real {
    if total > 0.0 then amount / total * 100.0 else 0.0
  }

  /** `Object.entries(byCategory).map(([name, amount], index) => ...)`. */
  function Entries(byCategory: seq<CategoryAmount>, total: real): (r: seq<CategoryDatum>)
    ensures |r| == |byCategory|
  {
    seq(|byCategory|, i requires 0 <= i < |byCategory| =>
      CategoryDatum(byCategory[i].category, byCategory[i].amount, Share(byCategory[i].amount, total), i % PALETTE_SIZE))
  }

  /** `categoryData`: one entry per category of the filtered expenses, largest first. */
  function CategoryData(filtered: seq<Expense>): (r: seq<CategoryDatum>)
    ensures SortedDesc(r, DatumAmount)
    ensures multiset(r) == multiset(Entries(CategoryTotals(filtered), Total(filtered)))
  {
    SortDesc(Entries(CategoryTotals(filtered), Total(filtered)), DatumAmount)
  }

  /** Every entry carries its category's total, its share of the overall
      total and a colour of the palette, and belongs to a category that has
      expenses. */
  lemma CategoryDataMeaning(filtered: seq<Expense>, d: CategoryDatum)
    requires d in CategoryData(filtered)
    ensures d.amount == CategoryTotal(filtered, d.name)
    ensures d.percentage == Share(d.amount, Total(filtered))
    ensures d.color < PALETTE_SIZE
    ensures HasCategory(filtered, d.name)
  {
    var byCategory := CategoryTotals(filtered);
    var entries := Entries(byCategory, Total(filtered));
    MultisetMembership(CategoryData(filtered), entries, d);
    var i :| 0 <= i < |entries| && entries[i] == d;
    CategoryTotalsDistinct(filtered);
    assert IndexOfCategory(byCategory, d.name) == i;
    CategoryTotalsLookup(filtered, d.name);
    CategoryTotalsKeys(filtered, d.name);
  }

  /** Every category that has an expense has an entry. */
  lemma CategoryDataCoverage(filtered: seq<Expense>, c: string)
    requires HasCategory(filtered, c)
    ensures exists d :: d in CategoryData(filtered) && d.name == c
  {
    var byCategory := CategoryTotals(filtered);
    var entries := Entries(byCategory, Total(filtered));
    CategoryTotalsKeys(filtered, c);
    var i := IndexOfCategory(byCategory, c);
    MultisetMembership(CategoryData(filtered), entries, entries[i]);
  }

  /** With a positive total the percentages add up to 100. */
  lemma CategoryPercentagesSum(filtered: seq<Expense>)
    requires Total(filtered) > 0.0
    ensures Sum(CategoryData(filtered), DatumPercentage) == 100.0
  {
    var byCategory := CategoryTotals(filtered);
    var entries := Entries(byCategory, Total(filtered));
    SumPermutation(CategoryData(filtered), entries, DatumPercentage);
    CategoryTotalsSum(filtered);
    EntriesPercentSum(byCategory, Total(filtered));
  }

  /** Shares of a positive total that the amounts add up to add up to 100. */
  lemma EntriesPercentSum(byCategory: seq<CategoryAmount>, total: real)
    requires total > 0.0 && Sum(byCategory, Amount) == total
    ensures Sum(Entries(byCategory, total), DatumPercentage) == 100.0
  {
    var entries := Entries(byCategory, total);
    var c := 100.0 / total;
    forall i | 0 <= i < |entries|
      ensures DatumPercentage(entries[i]) == Amount(byCategory[i]) * c
    {
      ShareScaled(byCategory[i].amount, total);
    }
    SumScaled(entries, byCategory, DatumPercentage, Amount, c);
    assert total * c == 100.0;
  }

  lemma ShareScaled(amount: real, total: real)
    requires total > 0.0
    ensures Share(amount, total) == amount * (100.0 / total)
  {
  }

  // ---------------------------------------------------------------------
  // Six-month trend.

  datatype MonthAmount = MonthAmount(month: MonthKey, amount: real)

  /** The k-th of the six trend months, oldest first: `new Date(year, month - 5 + k, 1)`. */
  function TrendMonth(today: Date, k: int): MonthKey {
    MonthFromIndex(MonthIndex(MonthOf(today)) - 5 + k)
  }

  /** `trendData`: six zero buckets, oldest month first, then every expense
      added to the bucket of its month when there is one. */
  method TrendData(expenses: seq<Expense>, today: Date) returns (buckets: seq<MonthAmount>)
    ensures |buckets| == 6
    ensures forall k :: 0 <= k < 6 ==>
      buckets[k].month == TrendMonth(today, k) && buckets[k].amount == MonthTotal(expenses, buckets[k].month)
  {
    buckets := [];
    var i := 5;
    while i >= 0
      invariant -1 <= i <= 5
      invariant |buckets| == 5 - i
      invariant forall k :: 0 <= k < |buckets| ==> buckets[k] == MonthAmount(TrendMonth(today, k), 0.0)
    {
      buckets := buckets + [MonthAmount(MonthFromIndex(MonthIndex(MonthOf(today)) - i), 0.0)];
      i := i - 1;
    }
    var j := 0;
    while j < |expenses|
      invariant 0 <= j <= |expenses|
      invariant |buckets| == 6
      invariant forall k :: 0 <= k < 6 ==>
        buckets[k].month == TrendMonth(today, k) && buckets[k].amount == MonthTotal(expenses[..j], buckets[k].month)
    {
      var e := expenses[j];
      var key := MonthOf(e.date);
      assert expenses[..j + 1] == expenses[..j] + [e];
      forall k | 0 <= k < 6
        ensures MonthTotal(expenses[..j + 1], buckets[k].month)
          == MonthTotal(expenses[..j], buckets[k].month) + (if InMonth(e, buckets[k].month) then e.amount else 0.0)
      {
        MonthTotalAppend(expenses[..j], e, buckets[k].month);
      }
      buckets := seq(6, k requires 0 <= k < 6 =>
        if buckets[k].month == key then buckets[k].(amount := buckets[k].amount + e.amount) else buckets[k]);
      j := j + 1;
    }
    assert expenses[..j] == expenses;
  }

  /** The six trend months are consecutive and end with the current month. */
  lemma TrendWindow(today: Date)
    ensures TrendMonth(today, 5) == MonthOf(today)
    ensures forall k :: 0 <= k < 5 ==> MonthIndex(TrendMonth(today, k + 1)) == MonthIndex(TrendMonth(today, k)) + 1
  {
    MonthIndexInjective(TrendMonth(today, 5), MonthOf(today));
  }

  // ---------------------------------------------------------------------
  // Year over year.

  /** The percent-change rule of the comparison: relative to last year when
      there was spending then, 100 when there is spending only now, else 0. */
  function PercentChange(current: real, last: real): real {
    if last > 0.0 then (current - last) / last * 100.0
    else if current > 0.0 then 100.0
    else 0.0
  }

  /** Applying the change to last year's amount gives this year's, so the
      change is positive exactly when spending grew and zero exactly when it
      stayed; without spending last year the change is 100 or 0. */
  lemma PercentChangeMeaning(current: real, last: real)
    ensures last > 0.0 ==> last + last * PercentChange(current, last) / 100.0 == current
    ensures last > 0.0 ==> (PercentChange(current, last) > 0.0 <==> current > last)
    ensures last > 0.0 ==> (PercentChange(current, last) == 0.0 <==> current == last)
    ensures last <= 0.0 ==> (PercentChange(current, last) == 100.0 <==> current > 0.0)
  {
    if last > 0.0 {
      var q := (current - last) / last;
      assert q * last == current - last;
      assert PercentChange(current, last) == q * 100.0;
      assert q > 0.0 <==> current > last;
    }
  }

  /** Month `i` of `year`, counted from 0 as `getMonth()` counts. */
  function MonthOfYear(year: int, i: int): MonthKey
    requires 0 <= i < 12
  {
    YM(year, i + 1)
  }

  datatype YoyRow = YoyRow(month: nat, current: real, last: real, difference: real, percentChange: real)

  /** `yoyData`: twelve rows, January first, each with this year's and last
      year's total for that month, their difference and percent change. */
  method YoyData(expenses: seq<Expense>, currentYear: int) returns (rows: seq<YoyRow>)
    ensures |rows| == 12
    ensures forall i :: 0 <= i < 12 ==>
      && rows[i].month == i
      && rows[i].current == MonthTotal(expenses, MonthOfYear(currentYear, i))
      && rows[i].last == MonthTotal(expenses, MonthOfYear(currentYear - 1, i))
      && rows[i].difference == rows[i].current - rows[i].last
      && rows[i].percentChange == PercentChange(rows[i].current, rows[i].last)
  {
    var cur: seq<real> := [];
    var last: seq<real> := [];
    for i := 0 to 12
      invariant |cur| == |last| == i
      invariant forall k :: 0 <= k < i ==> cur[k] == 0.0 && last[k] == 0.0
    {
      cur := cur + [0.0];
      last := last + [0.0];
    }
    var j := 0;
    while j < |expenses|
      invariant 0 <= j <= |expenses|
      invariant |cur| == |last| == 12
      invariant forall k :: 0 <= k < 12 ==>
        cur[k] == MonthTotal(expenses[..j], MonthOfYear(currentYear, k)) &&
        last[k] == MonthTotal(expenses[..j], MonthOfYear(currentYear - 1, k))
    {
      var e := expenses[j];
      assert expenses[..j + 1] == expenses[..j] + [e];
      forall k | 0 <= k < 12
        ensures MonthTotal(expenses[..j + 1], MonthOfYear(currentYear, k))
          == MonthTotal(expenses[..j], MonthOfYear(currentYear, k)) + (if InMonth(e, MonthOfYear(currentYear, k)) then e.amount else 0.0)
        ensures MonthTotal(expenses[..j + 1], MonthOfYear(currentYear - 1, k))
          == MonthTotal(expenses[..j], MonthOfYear(currentYear - 1, k)) + (if InMonth(e, MonthOfYear(currentYear - 1, k)) then e.amount else 0.0)
      {
        MonthTotalAppend(expenses[..j], e, MonthOfYear(currentYear, k));
        MonthTotalAppend(expenses[..j], e, MonthOfYear(currentYear - 1, k));
      }
      var m := e.date.month - 1;
      if e.date.year == currentYear {
        cur := cur[m := cur[m] + e.amount];
      } else if e.date.year == currentYear - 1 {
        last := last[m := last[m] + e.amount];
      }
      j := j + 1;
    }
    assert expenses[..j] == expenses;
    rows := seq(12, i requires 0 <= i < 12 =>
      YoyRow(i, cur[i], last[i], cur[i] - last[i], PercentChange(cur[i], last[i])));
  }

  /** Whether an expense falls in the first `months` months of `year`. */
  predicate InYearUpTo(e: Expense, year: int, months: int) {
    e.date.year == year && e.date.month <= months
  }

  /** The expenses of `year` in its first `months` months. */
  function YearToDate(expenses: seq<Expense>, year: int, months: int): seq<Expense> {
    Filter(expenses, (e: Expense) => InYearUpTo(e, year, months))
  }

  /** The sum of the first n month totals of a year. */
  function MonthsTotal(expenses: seq<Expense>, year: int, n: nat): real
    requires n <= 12
  {
    if n == 0 then 0.0 else MonthsTotal(expenses, year, n - 1) + MonthTotal(expenses, YM(year, n))
  }

  /** One more month of the year adds that month's total. */
  lemma YearToDateStep(expenses: seq<Expense>, year: int, n: int)
    requires 1 <= n <= 12
    ensures Total(YearToDate(expenses, year, n)) == Total(YearToDate(expenses, year, n - 1)) + MonthTotal(expenses, YM(year, n))
  {
    var p := (e: Expense) => InYearUpTo(e, year, n - 1);
    var q := (e: Expense) => InMonth(e, YM(year, n));
    var r := (e: Expense) => InYearUpTo(e, year, n);
    forall x: Expense ensures r(x) == (p(x) || q(x)) && !(p(x) && q(x)) {
      assert InMonth(x, YM(year, n)) <==> x.date.year == year && x.date.month == n;
    }
    SumFilterSplit(expenses, p, q, r, (e: Expense) => e.amount);
  }

  /** Adding up month totals gives the year-to-date total. */
  lemma {:induction false} MonthsTotalIsYearToDate(expenses: seq<Expense>, year: int, n: nat)
    requires n <= 12
    ensures MonthsTotal(expenses, year, n) == Total(YearToDate(expenses, year, n))
  {
    if n == 0 {
      FilterNone(expenses, (e: Expense) => InYearUpTo(e, year, 0));
    } else {
      MonthsTotalIsYearToDate(expenses, year, n - 1);
      YearToDateStep(expenses, year, n);
    }
  }

  datatype YoySummary = YoySummary(currentTotal: real, lastTotal: real, difference: real, percentChange: real)

  /** `yoySummary`: the rows from January through the current month (0-based
      `currentMonth`) are added up, for this year and for last year. */
  method ComputeYoySummary(expenses: seq<Expense>, currentYear: int, currentMonth: int) returns (s: YoySummary)
    requires 0 <= currentMonth < 12
    ensures s.currentTotal == Total(YearToDate(expenses, currentYear, currentMonth + 1))
    ensures s.lastTotal == Total(YearToDate(expenses, currentYear - 1, currentMonth + 1))
    ensures s.difference == s.currentTotal - s.lastTotal
    ensures s.percentChange == PercentChange(s.currentTotal, s.lastTotal)
  {
    var rows := YoyData(expenses, currentYear);
    var currentTotal, lastTotal := 0.0, 0.0;
    var i := 0;
    while i < currentMonth + 1
      invariant 0 <= i <= currentMonth + 1
      invariant currentTotal == MonthsTotal(expenses, currentYear, i)
      invariant lastTotal == MonthsTotal(expenses, currentYear - 1, i)
    {
      currentTotal := currentTotal + rows[i].current;
      lastTotal := lastTotal + rows[i].last;
      i := i + 1;
    }
    MonthsTotalIsYearToDate(expenses, currentYear, currentMonth + 1);
    MonthsTotalIsYearToDate(expenses, currentYear - 1, currentMonth + 1);
    s := YoySummary(currentTotal, lastTotal, currentTotal - lastTotal, PercentChange(currentTotal, lastTotal));
  }
}
