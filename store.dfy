/** The application store: one object holding every collection, changed only
    through its actions. Each action replaces exactly the fields it names in
    its `modifies` clause; everything else is left as it was. */
module Store {
  import opened CivilDate
  import opened Types
  import opened Collection
  import opened Patches
  import opened Recurring
  import opened Ledger
  import opened NetWorthHistory
  import opened TagSet

  class AppStore {
    var bills: seq<Bill>
    var subscriptions: seq<Subscription>
    var income: seq<Income>
    var expenses: seq<Expense>
    var recurringExpenses: seq<RecurringExpense>
    var savings: seq<SavingsGoal>
    var borrowed: seq<Loan>
    var lent: seq<Loan>
    var assets: seq<Asset>
    var liabilities: seq<Liability>
    var netWorthHistory: seq<NetWorthSnapshot>
    var settings: AppSettings
    var tags: seq<string>

    /** Every action keeps one snapshot per day in the history. */
    predicate Valid()
      reads this`netWorthHistory
    {
      UniqueDates(netWorthHistory)
    }

    /** The store starts from the seed data. */
    constructor ()
      ensures Data() == SEED_DATA
      ensures Valid()
    {
      bills, subscriptions, income, expenses := [], [], [], [];
      recurringExpenses, savings, borrowed, lent := [], [], [], [];
      assets, liabilities, netWorthHistory := [], [], [];
      settings, tags := DEFAULT_SETTINGS, [];
    }

    /** The persisted state. */
    function Data(): AppData
      reads this
    {
      AppData(bills, subscriptions, income, expenses, recurringExpenses, savings,
        borrowed, lent, assets, liabilities, netWorthHistory, settings, tags)
    }

    /** `addBill`: the record is appended under a fresh id. */
    method AddBill(x: Bill, newId: Id)
      modifies this`bills
      ensures bills == old(bills) + [x.(id := newId)]
    {
      bills := bills + [x.(id := newId)];
    }

    /** `updateBill`: the patch is merged into every record with the id. */
    method UpdateBill(id: Id, patch: BillPatch)
      modifies this`bills
      ensures bills == Updated(old(bills), id, BillId, MergeBill, patch)
    {
      bills := Updated(bills, id, BillId, MergeBill, patch);
    }

    /** `deleteBill`: every record with the id is removed. */
    method DeleteBill(id: Id)
      modifies this`bills
      ensures bills == Removed(old(bills), id, BillId)
    {
      bills := Removed(bills, id, BillId);
    }

    /** `addSubscription`: the record is appended under a fresh id. */
    method AddSubscription(x: Subscription, newId: Id)
      modifies this`subscriptions
      ensures subscriptions == old(subscriptions) + [x.(id := newId)]
    {
      subscriptions := subscriptions + [x.(id := newId)];
    }

    /** `updateSubscription`: the patch is merged into every record with the id. */
    method UpdateSubscription(id: Id, patch: SubscriptionPatch)
      modifies this`subscriptions
      ensures subscriptions == Updated(old(subscriptions), id, SubscriptionId, MergeSubscription, patch)
    {
      subscriptions := Updated(subscriptions, id, SubscriptionId, MergeSubscription, patch);
    }

    /** `deleteSubscription`: every record with the id is removed. */
    method DeleteSubscription(id: Id)
      modifies this`subscriptions
      ensures subscriptions == Removed(old(subscriptions), id, SubscriptionId)
    {
      subscriptions := Removed(subscriptions, id, SubscriptionId);
    }

    /** `addIncome`: the record is appended under a fresh id. */
    method AddIncome(x: Income, newId: Id)
      modifies this`income
      ensures income == old(income) + [x.(id := newId)]
    {
      income := income + [x.(id := newId)];
    }

    /** `updateIncome`: the patch is merged into every record with the id. */
    method UpdateIncome(id: Id, patch: IncomePatch)
      modifies this`income
      ensures income == Updated(old(income), id, IncomeId, MergeIncome, patch)
    {
      income := Updated(income, id, IncomeId, MergeIncome, patch);
    }

    /** `deleteIncome`: every record with the id is removed. */
    method DeleteIncome(id: Id)
      modifies this`income
      ensures income == Removed(old(income), id, IncomeId)
    {
      income := Removed(income, id, IncomeId);
    }

    /** `addExpense`: the record is appended under a fresh id. */
    method AddExpense(x: Expense, newId: Id)
      modifies this`expenses
      ensures expenses == old(expenses) + [x.(id := newId)]
    {
      expenses := expenses + [x.(id := newId)];
    }

    /** `updateExpense`: the patch is merged into every record with the id. */
    method UpdateExpense(id: Id, patch: ExpensePatch)
      modifies this`expenses
      ensures expenses == Updated(old(expenses), id, ExpenseId, MergeExpense, patch)
    {
      expenses := Updated(expenses, id, ExpenseId, MergeExpense, patch);
    }

    /** `deleteExpense`: every record with the id is removed. */
    method DeleteExpense(id: Id)
      modifies this`expenses
      ensures expenses == Removed(old(expenses), id, ExpenseId)
    {
      expenses := Removed(expenses, id, ExpenseId);
    }

    /** `addRecurringExpense`: the record is appended under a fresh id. */
    method AddRecurringExpense(x: RecurringExpense, newId: Id)
      modifies this`recurringExpenses
      ensures recurringExpenses == old(recurringExpenses) + [x.(id := newId)]
    {
      recurringExpenses := recurringExpenses + [x.(id := newId)];
    }

    /** `updateRecurringExpense`: the patch is merged into every record with the id. */
    method UpdateRecurringExpense(id: Id, patch: RecurringExpensePatch)
      modifies this`recurringExpenses
      ensures recurringExpenses == Updated(old(recurringExpenses), id, RecurringExpenseId, MergeRecurringExpense, patch)
    {
      recurringExpenses := Updated(recurringExpenses, id, RecurringExpenseId, MergeRecurringExpense, patch);
    }

    /** `deleteRecurringExpense`: every record with the id is removed. */
    method DeleteRecurringExpense(id: Id)
      modifies this`recurringExpenses
      ensures recurringExpenses == Removed(old(recurringExpenses), id, RecurringExpenseId)
    {
      recurringExpenses := Removed(recurringExpenses, id, RecurringExpenseId);
    }

    /** `addSavingsGoal`: the record is appended under a fresh id. */
    method AddSavingsGoal(x: SavingsGoal, newId: Id)
      modifies this`savings
      ensures savings == old(savings) + [x.(id := newId)]
    {
      savings := savings + [x.(id := newId)];
    }

    /** `updateSavingsGoal`: the patch is merged into every record with the id. */
    method UpdateSavingsGoal(id: Id, patch: SavingsGoalPatch)
      modifies this`savings
      ensures savings == Updated(old(savings), id, SavingsGoalId, MergeSavingsGoal, patch)
    {
      savings := Updated(savings, id, SavingsGoalId, MergeSavingsGoal, patch);
    }

    /** `deleteSavingsGoal`: every record with the id is removed. */
    method DeleteSavingsGoal(id: Id)
      modifies this`savings
      ensures savings == Removed(old(savings), id, SavingsGoalId)
    {
      savings := Removed(savings, id, SavingsGoalId);
    }

    /** `addBorrowed`: the record is appended under a fresh id with no payments yet. */
    method AddBorrowed(x: Loan, newId: Id)
      modifies this`borrowed
      ensures borrowed == old(borrowed) + [x.(id := newId, payments := [])]
    {
      borrowed := borrowed + [x.(id := newId, payments := [])];
    }

    /** `updateBorrowed`: the patch is merged into every record with the id. */
    method UpdateBorrowed(id: Id, patch: LoanPatch)
      modifies this`borrowed
      ensures borrowed == Updated(old(borrowed), id, LoanId, MergeLoan, patch)
    {
      borrowed := Updated(borrowed, id, LoanId, MergeLoan, patch);
    }

    /** `deleteBorrowed`: every record with the id is removed. */
    method DeleteBorrowed(id: Id)
      modifies this`borrowed
      ensures borrowed == Removed(old(borrowed), id, LoanId)
    {
      borrowed := Removed(borrowed, id, LoanId);
    }

    /** `addLent`: the record is appended under a fresh id with no payments yet. */
    method AddLent(x: Loan, newId: Id)
      modifies this`lent
      ensures lent == old(lent) + [x.(id := newId, payments := [])]
    {
      lent := lent + [x.(id := newId, payments := [])];
    }

    /** `updateLent`: the patch is merged into every record with the id. */
    method UpdateLent(id: Id, patch: LoanPatch)
      modifies this`lent
      ensures lent == Updated(old(lent), id, LoanId, MergeLoan, patch)
    {
      lent := Updated(lent, id, LoanId, MergeLoan, patch);
    }

    /** `deleteLent`: every record with the id is removed. */
    method DeleteLent(id: Id)
      modifies this`lent
      ensures lent == Removed(old(lent), id, LoanId)
    {
      lent := Removed(lent, id, LoanId);
    }

    /** `addAsset`: the record is appended under a fresh id. */
    method AddAsset(x: Asset, newId: Id)
      modifies this`assets
      ensures assets == old(assets) + [x.(id := newId)]
    {
      assets := assets + [x.(id := newId)];
    }

    /** `updateAsset`: the patch is merged into every record with the id. */
    method UpdateAsset(id: Id, patch: AssetPatch)
      modifies this`assets
      ensures assets == Updated(old(assets), id, AssetId, MergeAsset, patch)
    {
      assets := Updated(assets, id, AssetId, MergeAsset, patch);
    }

    /** `deleteAsset`: every record with the id is removed. */
    method DeleteAsset(id: Id)
      modifies this`assets
      ensures assets == Removed(old(assets), id, AssetId)
    {
      assets := Removed(assets, id, AssetId);
    }

    /** `addLiability`: the record is appended under a fresh id. */
    method AddLiability(x: Liability, newId: Id)
      modifies this`liabilities
      ensures liabilities == old(liabilities) + [x.(id := newId)]
    {
      liabilities := liabilities + [x.(id := newId)];
    }

    /** `updateLiability`: the patch is merged into every record with the id. */
    method UpdateLiability(id: Id, patch: LiabilityPatch)
      modifies this`liabilities
      ensures liabilities == Updated(old(liabilities), id, LiabilityId, MergeLiability, patch)
    {
      liabilities := Updated(liabilities, id, LiabilityId, MergeLiability, patch);
    }

    /** `deleteLiability`: every record with the id is removed. */
    method DeleteLiability(id: Id)
      modifies this`liabilities
      ensures liabilities == Removed(old(liabilities), id, LiabilityId)
    {
      liabilities := Removed(liabilities, id, LiabilityId);
    }

    /** `processRecurringExpenses`: every active template due on or before
        today produces one expense dated on its due date, appended after the
        existing expenses, and moves on by one period. */
    method ProcessRecurringExpenses(today: Date, freshId: nat -> Id)
      modifies this`recurringExpenses, this`expenses
      ensures recurringExpenses == Process(old(recurringExpenses), today, freshId).0
      ensures expenses == old(expenses) + Process(old(recurringExpenses), today, freshId).1
    {
      var newExpenses: seq<Expense> := [];
      var updated: seq<RecurringExpense> := [];
      var i := 0;
      while i < |recurringExpenses|
        invariant 0 <= i <= |recurringExpenses|
        invariant (updated, newExpenses) == Process(recurringExpenses[..i], today, freshId)
      {
        var rec := recurringExpenses[i];
        assert recurringExpenses[..i + 1][..i] == recurringExpenses[..i];
        if !rec.isActive {
          updated := updated + [rec];
        } else if OnOrBefore(rec.nextDueDate, today) {
          newExpenses := newExpenses + [Expense(id := freshId(|newExpenses|), date := rec.nextDueDate,
            category := rec.category, description := rec.description, amount := rec.amount,
            tags := rec.tags, recurringExpenseId := Some(rec.id))];
          var newNextDue := rec.nextDueDate;
          match rec.frequency {
            case Weekly => newNextDue := AddDays(newNextDue, 7);
            case BiWeekly => newNextDue := AddDays(newNextDue, 14);
            case Monthly => newNextDue := AddMonthsJs(newNextDue, 1);
            case Yearly => newNextDue := AddYearsJs(newNextDue, 1);
            case OneTime =>
          }
          updated := updated + [rec.(lastGeneratedDate := Some(today), nextDueDate := newNextDue)];
        } else {
          updated := updated + [rec];
        }
        i := i + 1;
      }
      assert recurringExpenses[..i] == recurringExpenses;
      recurringExpenses := updated;
      expenses := expenses + newExpenses;
    }

    /** `addToSavings`: the amount is added to every goal with the id, with no cap. */
    method AddToSavings(id: Id, amount: real)
      modifies this`savings
      ensures savings == Updated(old(savings), id, SavingsGoalId, Deposit, amount)
    {
      savings := Updated(savings, id, SavingsGoalId, Deposit, amount);
    }

    /** `addPaymentToBorrowed`: the payment, under a fresh id, is applied to every loan with the id. */
    method AddPaymentToBorrowed(id: Id, date: Date, amount: real, notes: Option<string>, newId: Id)
      modifies this`borrowed
      ensures borrowed == Updated(old(borrowed), id, LoanId, ApplyPayment, Payment(newId, date, amount, notes))
    {
      borrowed := Updated(borrowed, id, LoanId, ApplyPayment, Payment(newId, date, amount, notes));
    }

    /** `addRepaymentToLent`: the repayment, under a fresh id, is applied to every loan with the id. */
    method AddRepaymentToLent(id: Id, date: Date, amount: real, notes: Option<string>, newId: Id)
      modifies this`lent
      ensures lent == Updated(old(lent), id, LoanId, ApplyPayment, Payment(newId, date, amount, notes))
    {
      lent := Updated(lent, id, LoanId, ApplyPayment, Payment(newId, date, amount, notes));
    }

    /** `recordNetWorthSnapshot`: today's totals replace the snapshot already
        taken today, in place, or are appended. */
    method RecordNetWorthSnapshot(today: Date)
      modifies this`netWorthHistory
      ensures netWorthHistory == Upsert(old(netWorthHistory), TakeSnapshot(assets, liabilities, today))
      ensures old(Valid()) ==> Valid()
    {
      var snapshot := TakeSnapshot(assets, liabilities, today);
      var existingIndex := FirstWithDate(netWorthHistory, today);
      if existingIndex >= 0 {
        netWorthHistory := netWorthHistory[existingIndex := snapshot];
      } else {
        netWorthHistory := netWorthHistory + [snapshot];
      }
      if old(Valid()) {
        UpsertKeepsUnique(old(netWorthHistory), snapshot);
      }
    }

    /** `updateSettings`: the patch is merged into the settings. */
    method UpdateSettings(patch: SettingsPatch)
      modifies this`settings
      ensures settings == MergeSettings(old(settings), patch)
    {
      settings := MergeSettings(settings, patch);
    }

    method AddTag(tag: string)
      modifies this`tags
      ensures tags == TagSet.AddTag(old(tags), tag)
    {
      tags := TagSet.AddTag(tags, tag);
    }

    method RemoveTag(tag: string)
      modifies this`tags
      ensures tags == TagSet.RemoveTag(old(tags), tag)
    {
      tags := TagSet.RemoveTag(tags, tag);
    }

    /** `importData` as the settings page calls it: the nine backed-up fields
        are replaced; recurring expenses, assets, liabilities and the
        net-worth history are kept. */
    method ImportData(data: Backup)
      modifies this`bills, this`subscriptions, this`income, this`expenses, this`savings,
        this`borrowed, this`lent, this`settings, this`tags
      ensures bills == data.bills && subscriptions == data.subscriptions && income == data.income
      ensures expenses == data.expenses && savings == data.savings && borrowed == data.borrowed
      ensures lent == data.lent && settings == data.settings && tags == data.tags
    {
      bills, subscriptions, income, expenses := data.bills, data.subscriptions, data.income, data.expenses;
      savings, borrowed, lent := data.savings, data.borrowed, data.lent;
      settings, tags := data.settings, data.tags;
    }

    /** `resetData`: back to the seed data, which is the empty backup
        imported with the remaining four collections cleared. */
    method ResetData()
      modifies this
      ensures Data() == SEED_DATA
      ensures Valid()
    {
      ImportData(Backup([], [], [], [], [], [], [], DEFAULT_SETTINGS, []));
      recurringExpenses, assets, liabilities, netWorthHistory := [], [], [], [];
    }
  }
}
