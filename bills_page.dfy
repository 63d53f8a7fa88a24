/** The bills page: a new bill from the form, marking a bill paid, the
    status badge and when "Mark Paid" is offered. */
module BillsPage {
  import opened CivilDate
  import opened Types
  import opened Collection
  import opened Patches

  datatype BillForm = BillForm(name: string, category: string, amountDue: real, dueDate: Date,
    repeat: Repeat, paymentUrl: string, notes: string)

  /** `handleSubmit`: the new bill is unpaid, with nothing paid yet (the
      store gives it its id). */
  function NewBill(form: BillForm): (b: Bill)
    ensures b.status == Unpaid && b.datePaid.None? && b.amountPaid.None?
    ensures b.name == form.name && b.amountDue == form.amountDue && b.dueDate == form.dueDate
  {
    Bill("", form.name, form.category, form.amountDue, form.dueDate, Unpaid, None, None,
      Some(form.notes), form.repeat, Some(form.paymentUrl), None)
  }

  /** `markAsPaid`: the patch sets the status and today's date paid. */
  function MarkAsPaidPatch(today: Date): BillPatch {
    BillPatch(Keep, Keep, Keep, Keep, Keep, SetTo(Paid), SetTo(Some(today)), Keep, Keep, Keep, Keep, Keep)
  }

  /** "Mark Paid" is offered for bills not yet paid. */
  predicate ShowsMarkPaid(b: Bill) {
    b.status != Paid
  }

  /** Marking paid changes the status and the date paid and nothing else,
      after which "Mark Paid" is no longer offered. */
  lemma MarkAsPaidEffect(b: Bill, today: Date)
    ensures MergeBill(b, MarkAsPaidPatch(today)) == b.(status := Paid, datePaid := Some(today))
    ensures !ShowsMarkPaid(MergeBill(b, MarkAsPaidPatch(today)))
  {
  }

  /** In the store only the bill with the id is marked; every other bill is as it was. */
  lemma MarkAsPaidInStore(bills: seq<Bill>, id: Id, today: Date, i: int)
    requires 0 <= i < |bills|
    ensures var r := Updated(bills, id, BillId, MergeBill, MarkAsPaidPatch(today));
      (bills[i].id == id ==> r[i] == bills[i].(status := Paid, datePaid := Some(today))) &&
      (bills[i].id != id ==> r[i] == bills[i])
  {
    UpdatedPointwise(bills, id, BillId, MergeBill, MarkAsPaidPatch(today), i);
    MarkAsPaidEffect(bills[i], today);
  }

  /** `getStatusBadge`: the label shown; `default` reads "Unpaid". */
  function StatusBadge(s: BillStatus): string {
    match s
    case Paid => "Paid"
    case Overdue => "Overdue"
    case Partial => "Partial"
    case _ => "Unpaid"
  }

  /** Different statuses show different labels, and "Unpaid" is shown for
      the unpaid status alone. */
  lemma StatusBadgeDistinct(s: BillStatus, t: BillStatus)
    ensures StatusBadge(s) == StatusBadge(t) <==> s == t
    ensures StatusBadge(s) == "Unpaid" <==> s == Unpaid
  {
  }
}
