/** The income page: the monthly estimate, the one-time total and the
    add-or-update choice on submit. The dashboard's monthly income is the
    same estimate. */
module IncomePage {
  import opened CivilDate
  import opened Types
  import opened SeqUtil
  import opened Collection
  import opened Patches

  /** How many times a month an income of the frequency counts: the `switch`
      counts a two-weekly income twice and a weekly one four times; one-time
      and yearly income fall to `default` and do not count. */
  function MonthlyFactor(f: Frequency): real {
    match f
    case Monthly => 1.0
    case BiWeekly => 2.0
    case Weekly => 4.0
    case _ => 0.0
  }

  function MonthlyAmount(i: Income): real {
    i.amount * MonthlyFactor(i.frequency)
  }

  /** `monthlyTotal` (and the dashboard's `monthlyIncome`). */
  function MonthlyTotal(income: seq<Income>): real {
    Sum(income, MonthlyAmount)
  }

  predicate IsOneTime(i: Income) {
    i.frequency == OneTime
  }

  /** `oneTimeTotal`: the one-time items only. */
  function OneTimeTotal(income: seq<Income>): real {
    Sum(Filter(income, IsOneTime), (i: Income) => i.amount)
  }

  lemma MonthlyTotalAppend(income: seq<Income>, i: Income)
    ensures MonthlyTotal(income + [i]) == MonthlyTotal(income) + MonthlyAmount(i)
  {
    var xs := income + [i];
    assert xs[..|xs| - 1] == income && xs[|xs| - 1] == i;
  }

  lemma OneTimeTotalAppend(income: seq<Income>, i: Income)
    ensures OneTimeTotal(income + [i]) == OneTimeTotal(income) + (if IsOneTime(i) then i.amount else 0.0)
  {
    FilterAppend(income, [i], IsOneTime);
    assert [i][..0] == [];
    assert Filter([i], IsOneTime) == (if IsOneTime(i) then [i] else []);
    SumAppend(Filter(income, IsOneTime), Filter([i], IsOneTime), (x: Income) => x.amount);
  }

  /** One more item raises the monthly estimate by its amount times its
      frequency factor, and the one-time total by its amount exactly when it
      is one-time: no item counts in both. */
  lemma TotalsAppend(income: seq<Income>, i: Income)
    ensures MonthlyTotal(income + [i]) == MonthlyTotal(income) + i.amount * MonthlyFactor(i.frequency)
    ensures OneTimeTotal(income + [i]) == OneTimeTotal(income) + (if IsOneTime(i) then i.amount else 0.0)
    ensures IsOneTime(i) ==> MonthlyFactor(i.frequency) == 0.0
  {
    MonthlyTotalAppend(income, i);
    OneTimeTotalAppend(income, i);
  }

  /** Yearly income is in no total at all. */
  lemma YearlyIgnored(income: seq<Income>, i: Income)
    requires i.frequency == Yearly
    ensures MonthlyTotal(income + [i]) == MonthlyTotal(income)
    ensures OneTimeTotal(income + [i]) == OneTimeTotal(income)
  {
    TotalsAppend(income, i);
  }

  /** `frequencyOptions`: the frequencies the form offers. */
  const FORM_FREQUENCIES: seq<Frequency> := [OneTime, Weekly, BiWeekly, Monthly]

  lemma FormFrequenciesShape()
    ensures |FORM_FREQUENCIES| == 4 && Yearly !in FORM_FREQUENCIES
    ensures forall f :: f != Yearly ==> f in FORM_FREQUENCIES
  {
  }

  /** The income form, its amount already parsed. */
  datatype IncomeForm = IncomeForm(sourceName: string, amount: real, frequency: Frequency, nextExpectedDate: Date, notes: string)

  /** What a submit asks of the store. */
  datatype IncomeSubmit = UpdateIncome(id: Id, patch: IncomePatch) | AddIncome(item: Income)

  /** `handleSubmit`: update the item being edited, else add a new one (the
      store gives it its id). */
  function SubmitIncome(editing: Option<Id>, form: IncomeForm): (r: IncomeSubmit)
    ensures r.UpdateIncome? <==> editing.Some?
    ensures r.UpdateIncome? ==> r.id == editing.value
  {
    if editing.Some? then
      UpdateIncome(editing.value, IncomePatch(Keep, SetTo(form.sourceName), SetTo(form.amount),
        SetTo(form.frequency), SetTo(form.nextExpectedDate), Keep, SetTo(Some(form.notes)), Keep))
    else
      AddIncome(Income("", form.sourceName, form.amount, form.frequency, form.nextExpectedDate,
        None, Some(form.notes), None))
  }

  /** Editing replaces the form's five fields and keeps the id, the last
      received date and the tags of the edited item. */
  lemma SubmitEditMerges(item: Income, form: IncomeForm)
    ensures var r := SubmitIncome(Some(item.id), form);
      MergeIncome(item, r.patch) == item.(sourceName := form.sourceName, amount := form.amount,
        frequency := form.frequency, nextExpectedDate := form.nextExpectedDate, notes := Some(form.notes))
  {
  }
}
