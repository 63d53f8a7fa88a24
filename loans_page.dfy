/** The loans page: a new loan from the form, the payment guard, each
    loan's progress, button and badge, and the totals owed. Blank form
    inputs are `None`. */
module LoansPage {
  import opened CivilDate
  import opened Types
  import opened SeqUtil
  import opened Collection
  import opened Ledger

  /** The loan form: a blank current balance or due date is `None`. */
  datatype LoanForm = LoanForm(name: string, originalAmount: real, currentBalance: Option<real>,
    startDate: Date, dueDate: Option<Date>, notes: string)

  /** `handleSubmit`: the loan starts active, its balance is the original
      amount when left blank, and it has no payments yet (the store gives
      it its id). */
  function NewLoan(form: LoanForm): (l: Loan)
    ensures l.status == Active && l.payments == []
    ensures l.currentBalance == if form.currentBalance.Some? then form.currentBalance.value else form.originalAmount
    ensures l.counterparty == form.name && l.originalAmount == form.originalAmount && l.dueDate == form.dueDate
  {
    var balance := if form.currentBalance.Some? then form.currentBalance.value else form.originalAmount;
    Loan("", form.name, form.originalAmount, balance, form.startDate, form.dueDate, Some(form.notes),
      Active, None, None, [], None)
  }

  /** `handlePayment`: a payment, dated today, is recorded only with a loan
      selected and an amount entered. */
  function HandlePayment(selected: Option<Id>, amount: Option<real>, today: Date): (r: Option<(Id, Date, real)>)
    ensures r.Some? <==> selected.Some? && amount.Some?
    ensures r.Some? ==> r.value == (selected.value, today, amount.value)
  {
    if selected.None? || amount.None? then None else Some((selected.value, today, amount.value))
  }

  /** The share of the original amount paid back, 0 without a positive original amount. */
  function Progress(l: Loan): real {
    if l.originalAmount > 0.0 then (l.originalAmount - l.currentBalance) / l.originalAmount * 100.0 else 0.0
  }

  /** A balance between zero and the original amount shows between 0 and
      100 percent, and exactly 100 once nothing is left. */
  lemma ProgressBounds(l: Loan)
    requires l.originalAmount > 0.0 && 0.0 <= l.currentBalance <= l.originalAmount
    ensures 0.0 <= Progress(l) <= 100.0
    ensures Progress(l) == 100.0 <==> l.currentBalance == 0.0
  {
    var q := (l.originalAmount - l.currentBalance) / l.originalAmount;
    assert q * l.originalAmount == l.originalAmount - l.currentBalance;
    assert Progress(l) == q * 100.0;
  }

  /** "Record Payment" is offered for active loans only. */
  predicate ShowsPaymentButton(l: Loan) {
    l.status == Active
  }

  /** The status badge: every status other than active reads "Paid Off". */
  function StatusLabel(l: Loan): (s: string)
    ensures s == "Active" <==> l.status == Active
  {
    if l.status == Active then "Active" else "Paid Off"
  }

  /** A forgiven loan is labelled as paid off, and a payment that clears the
      balance removes the payment button. */
  lemma LabelsAndButton(l: Loan, p: Payment)
    ensures l.status == Forgiven ==> StatusLabel(l) == "Paid Off"
    ensures l.currentBalance - p.amount <= 0.0 ==> !ShowsPaymentButton(ApplyPayment(l, p))
  {
  }

  /** `totalOwed` / `totalOwedToYou` (also the dashboard's loans summary). */
  function TotalBalance(loans: seq<Loan>): real {
    Sum(loans, (l: Loan) => l.currentBalance)
  }

  /** A payment of a non-negative amount never raises the total owed. */
  lemma PaymentNeverRaisesTotal(loans: seq<Loan>, id: Id, p: Payment)
    requires p.amount >= 0.0
    requires forall i :: 0 <= i < |loans| ==> loans[i].currentBalance >= 0.0
    ensures TotalBalance(Updated(loans, id, LoanId, ApplyPayment, p)) <= TotalBalance(loans)
  {
    var after := Updated(loans, id, LoanId, ApplyPayment, p);
    forall i | 0 <= i < |after|
      ensures after[i].currentBalance <= loans[i].currentBalance
    {
      UpdatedPointwise(loans, id, LoanId, ApplyPayment, p, i);
    }
    SumLe(after, loans, (l: Loan) => l.currentBalance, (l: Loan) => l.currentBalance);
  }
}
