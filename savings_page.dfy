/** The savings page: the total saved, the goal form with its defaults, the
    deposit guard, and each goal's progress and completion. Blank form
    inputs are `None`. */
module SavingsPage {
  import opened CivilDate
  import opened Types
  import opened SeqUtil
  import opened Collection
  import opened Patches
  import opened Ledger

  /** `totalSavings` (also the dashboard's). */
  function TotalSavings(savings: seq<SavingsGoal>): real {
    Sum(savings, (g: SavingsGoal) => g.currentAmount)
  }

  /** A deposit raises the total saved by its amount, whatever the goal. */
  lemma DepositRaisesTotal(savings: seq<SavingsGoal>, i: int, amount: real)
    requires 0 <= i < |savings|
    ensures TotalSavings(savings[i := Deposit(savings[i], amount)]) == TotalSavings(savings) + amount
  {
    var f := (g: SavingsGoal) => g.currentAmount;
    var after := savings[i := Deposit(savings[i], amount)];
    assert savings == savings[..i] + [savings[i]] + savings[i + 1..];
    assert after == savings[..i] + [Deposit(savings[i], amount)] + savings[i + 1..];
    SumAppend(savings[..i] + [savings[i]], savings[i + 1..], f);
    SumAppend(savings[..i], [savings[i]], f);
    SumAppend(savings[..i] + [Deposit(savings[i], amount)], savings[i + 1..], f);
    SumAppend(savings[..i], [Deposit(savings[i], amount)], f);
    assert [savings[i]][..0] == [];
    assert [Deposit(savings[i], amount)][..0] == [];
  }

  /** The goal form: blank current amount and blank deadline are `None`. */
  datatype GoalForm = GoalForm(name: string, targetAmount: real, currentAmount: Option<real>, deadline: Option<Date>, icon: string)

  datatype GoalSubmit = UpdateGoal(id: Id, patch: SavingsGoalPatch) | AddGoal(goal: SavingsGoal)

  /** `handleSubmit`: a blank current amount is read as `'0'`, a blank
      deadline becomes `undefined`; the edited goal is updated, else a new
      one is added (the store gives it its id). */
  function SubmitGoal(editing: Option<Id>, form: GoalForm): (r: GoalSubmit)
    ensures r.UpdateGoal? <==> editing.Some?
    ensures r.AddGoal? ==> r.goal.currentAmount == (if form.currentAmount.None? then 0.0 else form.currentAmount.value)
    ensures r.AddGoal? ==> r.goal.deadline == form.deadline
  {
    var current := if form.currentAmount.Some? then form.currentAmount.value else 0.0;
    if editing.Some? then
      UpdateGoal(editing.value, SavingsGoalPatch(Keep, SetTo(form.name), SetTo(form.targetAmount),
        SetTo(current), SetTo(form.deadline), SetTo(Some(form.icon)), Keep))
    else
      AddGoal(SavingsGoal("", form.name, form.targetAmount, current, form.deadline, Some(form.icon), None))
  }

  /** Editing with a blank deadline clears the goal's deadline (the patch
      carries `undefined`), and a blank current amount resets it to 0; the
      id and the notes are kept. */
  lemma SubmitEditClears(g: SavingsGoal, form: GoalForm)
    requires form.deadline.None? && form.currentAmount.None?
    ensures var r := SubmitGoal(Some(g.id), form);
      var m := MergeSavingsGoal(g, r.patch);
      m.deadline.None? && m.currentAmount == 0.0 && m.id == g.id && m.notes == g.notes
  {
  }

  /** `handleDeposit`: a deposit is made only with a goal selected and an
      amount entered. */
  function HandleDeposit(selected: Option<Id>, amount: Option<real>): (r: Option<(Id, real)>)
    ensures r.Some? <==> selected.Some? && amount.Some?
    ensures r.Some? ==> r.value == (selected.value, amount.value)
  {
    if selected.Some? && amount.Some? then Some((selected.value, amount.value)) else None
  }

  /** `progress`: 0 without a positive target. */
  function Progress(g: SavingsGoal): real {
    if g.targetAmount > 0.0 then g.currentAmount / g.targetAmount * 100.0 else 0.0
  }

  /** `isComplete`; the deposit button is disabled exactly then. */
  predicate IsComplete(g: SavingsGoal) {
    g.currentAmount >= g.targetAmount
  }

  predicate DepositEnabled(g: SavingsGoal) {
    !IsComplete(g)
  }

  /** With a positive target a goal is complete exactly at 100 percent;
      without one it shows 0 percent, and is complete as soon as nothing
      negative is saved. */
  lemma CompleteAtHundred(g: SavingsGoal)
    ensures g.targetAmount > 0.0 ==> (IsComplete(g) <==> Progress(g) >= 100.0)
    ensures g.targetAmount <= 0.0 ==> Progress(g) == 0.0
    ensures g.targetAmount <= 0.0 && g.currentAmount >= 0.0 ==> IsComplete(g)
  {
    if g.targetAmount > 0.0 {
      var q := g.currentAmount / g.targetAmount;
      assert q * g.targetAmount == g.currentAmount;
      assert Progress(g) == q * 100.0;
      assert q >= 1.0 <==> g.currentAmount >= g.targetAmount;
    }
  }

  /** Depositing what is missing completes a goal, after which deposits
      are disabled. */
  lemma DepositCompletes(g: SavingsGoal, amount: real)
    requires amount >= g.targetAmount - g.currentAmount
    ensures IsComplete(Deposit(g, amount)) && !DepositEnabled(Deposit(g, amount))
  {
  }
}
