/** Money movements on single records: a payment on borrowed money or a
    repayment on lent money, and a deposit into a savings goal. */
module Ledger {
  import opened CivilDate
  import opened Types

  /** `addPaymentToBorrowed` / `addRepaymentToLent` on the matching loan: the
      balance drops by the amount but not below zero, the payment (already
      carrying its fresh id) is recorded, and the loan is paid off once nothing is left. */
  function ApplyPayment(l: Loan, p: Payment): (r: Loan)
    ensures r.currentBalance >= 0.0
    ensures r.currentBalance == if l.currentBalance - p.amount > 0.0 then l.currentBalance - p.amount else 0.0
    ensures r.payments == l.payments + [p]
    ensures r.status == if l.currentBalance - p.amount <= 0.0 then PaidOff else l.status
    ensures r.(currentBalance := l.currentBalance, payments := l.payments, status := l.status) == l
  {
    var newBalance := l.currentBalance - p.amount;
    l.(currentBalance := if 0.0 > newBalance then 0.0 else newBalance,
       payments := l.payments + [p],
       status := if newBalance <= 0.0 then PaidOff else l.status)
  }

  /** On a loan that is still active, it is paid off exactly when its balance reached zero. */
  lemma ActivePaidOffIffZero(l: Loan, p: Payment)
    requires l.status == Active && l.currentBalance >= 0.0
    ensures ApplyPayment(l, p).status == PaidOff <==> ApplyPayment(l, p).currentBalance == 0.0
  {
  }

  /** Two non-negative payments in a row leave the balance that one payment
      of their sum leaves. */
  lemma PaymentsCompose(l: Loan, p: Payment, q: Payment)
    requires p.amount >= 0.0 && q.amount >= 0.0
    ensures ApplyPayment(ApplyPayment(l, p), q).currentBalance
         == ApplyPayment(l, p.(amount := p.amount + q.amount)).currentBalance
    ensures |ApplyPayment(ApplyPayment(l, p), q).payments| == |l.payments| + 2
  {
  }

  /** A loan once paid off stays paid off under further payments. */
  lemma PaidOffIsFinal(l: Loan, p: Payment)
    requires l.status == PaidOff
    ensures ApplyPayment(l, p).status == PaidOff
  {
  }

  /** `addToSavings` on the matching goal: the amount is added with no cap at the target. */
  function Deposit(g: SavingsGoal, amount: real): (r: SavingsGoal)
    ensures r.currentAmount - g.currentAmount == amount
    ensures r.(currentAmount := g.currentAmount) == g
  {
    g.(currentAmount := g.currentAmount + amount)
  }

  /** Deposits accumulate, and can carry a goal past its target. */
  lemma DepositsAccumulate(g: SavingsGoal, a: real, b: real)
    ensures Deposit(Deposit(g, a), b) == Deposit(g, a + b)
    ensures g.currentAmount + a > g.targetAmount ==> Deposit(g, a).currentAmount > g.targetAmount
  {
  }
}
