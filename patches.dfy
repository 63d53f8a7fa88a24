/** `Partial<T>` patches and the shallow merge `{ ...record, ...patch }` the
    store's update actions perform. A field present in the patch replaces the
    record's field (for an optional field, possibly with `undefined`); an
    absent field is kept. A patch may carry `id`, which then replaces the id. */
module Patches {
  import opened Types
  import opened Collection

  datatype BillPatch = BillPatch(
    id: Field<Id>, name: Field<string>, category: Field<string>, amountDue: Field<real>,
    dueDate: Field<CivilDate.Date>, status: Field<BillStatus>, datePaid: Field<Option<CivilDate.Date>>,
    amountPaid: Field<Option<real>>, notes: Field<Option<string>>, repeat: Field<Repeat>,
    paymentUrl: Field<Option<string>>, tags: Field<Option<seq<string>>>)

  function MergeBill(b: Bill, p: BillPatch): Bill {
    Bill(Over(p.id, b.id), Over(p.name, b.name), Over(p.category, b.category),
      Over(p.amountDue, b.amountDue), Over(p.dueDate, b.dueDate), Over(p.status, b.status),
      Over(p.datePaid, b.datePaid), Over(p.amountPaid, b.amountPaid), Over(p.notes, b.notes),
      Over(p.repeat, b.repeat), Over(p.paymentUrl, b.paymentUrl), Over(p.tags, b.tags))
  }

  datatype SubscriptionPatch = SubscriptionPatch(
    id: Field<Id>, name: Field<string>, amount: Field<real>, billingCycle: Field<BillingCycle>,
    nextBillingDate: Field<CivilDate.Date>, category: Field<string>, notes: Field<Option<string>>,
    paymentUrl: Field<Option<string>>, lastPaidDate: Field<Option<CivilDate.Date>>,
    tags: Field<Option<seq<string>>>)

  function MergeSubscription(s: Subscription, p: SubscriptionPatch): Subscription {
    Subscription(Over(p.id, s.id), Over(p.name, s.name), Over(p.amount, s.amount),
      Over(p.billingCycle, s.billingCycle), Over(p.nextBillingDate, s.nextBillingDate),
      Over(p.category, s.category), Over(p.notes, s.notes), Over(p.paymentUrl, s.paymentUrl),
      Over(p.lastPaidDate, s.lastPaidDate), Over(p.tags, s.tags))
  }

  datatype IncomePatch = IncomePatch(
    id: Field<Id>, sourceName: Field<string>, amount: Field<real>, frequency: Field<Frequency>,
    nextExpectedDate: Field<CivilDate.Date>, lastReceivedDate: Field<Option<CivilDate.Date>>,
    notes: Field<Option<string>>, tags: Field<Option<seq<string>>>)

  function MergeIncome(i: Income, p: IncomePatch): Income {
    Income(Over(p.id, i.id), Over(p.sourceName, i.sourceName), Over(p.amount, i.amount),
      Over(p.frequency, i.frequency), Over(p.nextExpectedDate, i.nextExpectedDate),
      Over(p.lastReceivedDate, i.lastReceivedDate), Over(p.notes, i.notes), Over(p.tags, i.tags))
  }

  datatype ExpensePatch = ExpensePatch(
    id: Field<Id>, date: Field<CivilDate.Date>, category: Field<string>, description: Field<string>,
    amount: Field<real>, tags: Field<Option<seq<string>>>, recurringExpenseId: Field<Option<Id>>)

  function MergeExpense(e: Expense, p: ExpensePatch): Expense {
    Expense(Over(p.id, e.id), Over(p.date, e.date), Over(p.category, e.category),
      Over(p.description, e.description), Over(p.amount, e.amount), Over(p.tags, e.tags),
      Over(p.recurringExpenseId, e.recurringExpenseId))
  }

  datatype RecurringExpensePatch = RecurringExpensePatch(
    id: Field<Id>, description: Field<string>, amount: Field<real>, category: Field<string>,
    frequency: Field<Frequency>, startDate: Field<CivilDate.Date>, nextDueDate: Field<CivilDate.Date>,
    lastGeneratedDate: Field<Option<CivilDate.Date>>, isActive: Field<bool>,
    tags: Field<Option<seq<string>>>)

  function MergeRecurringExpense(r: RecurringExpense, p: RecurringExpensePatch): RecurringExpense {
    RecurringExpense(Over(p.id, r.id), Over(p.description, r.description), Over(p.amount, r.amount),
      Over(p.category, r.category), Over(p.frequency, r.frequency), Over(p.startDate, r.startDate),
      Over(p.nextDueDate, r.nextDueDate), Over(p.lastGeneratedDate, r.lastGeneratedDate),
      Over(p.isActive, r.isActive), Over(p.tags, r.tags))
  }

  datatype SavingsGoalPatch = SavingsGoalPatch(
    id: Field<Id>, name: Field<string>, targetAmount: Field<real>, currentAmount: Field<real>,
    deadline: Field<Option<CivilDate.Date>>, icon: Field<Option<string>>, notes: Field<Option<string>>)

  function MergeSavingsGoal(g: SavingsGoal, p: SavingsGoalPatch): SavingsGoal {
    SavingsGoal(Over(p.id, g.id), Over(p.name, g.name), Over(p.targetAmount, g.targetAmount),
      Over(p.currentAmount, g.currentAmount), Over(p.deadline, g.deadline), Over(p.icon, g.icon),
      Over(p.notes, g.notes))
  }

  datatype LoanPatch = LoanPatch(
    id: Field<Id>, counterparty: Field<string>, originalAmount: Field<real>,
    currentBalance: Field<real>, startDate: Field<CivilDate.Date>, dueDate: Field<Option<CivilDate.Date>>,
    notes: Field<Option<string>>, status: Field<LoanStatus>, nextPaymentAmount: Field<Option<real>>,
    nextPaymentDueDate: Field<Option<CivilDate.Date>>, payments: Field<seq<Payment>>,
    tags: Field<Option<seq<string>>>)

  function MergeLoan(l: Loan, p: LoanPatch): Loan {
    Loan(Over(p.id, l.id), Over(p.counterparty, l.counterparty),
      Over(p.originalAmount, l.originalAmount), Over(p.currentBalance, l.currentBalance),
      Over(p.startDate, l.startDate), Over(p.dueDate, l.dueDate), Over(p.notes, l.notes),
      Over(p.status, l.status), Over(p.nextPaymentAmount, l.nextPaymentAmount),
      Over(p.nextPaymentDueDate, l.nextPaymentDueDate), Over(p.payments, l.payments),
      Over(p.tags, l.tags))
  }

  datatype AssetPatch = AssetPatch(
    id: Field<Id>, name: Field<string>, kind: Field<AssetType>, value: Field<real>,
    notes: Field<Option<string>>, lastUpdated: Field<CivilDate.Date>)

  function MergeAsset(a: Asset, p: AssetPatch): Asset {
    Asset(Over(p.id, a.id), Over(p.name, a.name), Over(p.kind, a.kind), Over(p.value, a.value),
      Over(p.notes, a.notes), Over(p.lastUpdated, a.lastUpdated))
  }

  datatype LiabilityPatch = LiabilityPatch(
    id: Field<Id>, name: Field<string>, kind: Field<LiabilityType>, balance: Field<real>,
    interestRate: Field<Option<real>>, notes: Field<Option<string>>, lastUpdated: Field<CivilDate.Date>)

  function MergeLiability(l: Liability, p: LiabilityPatch): Liability {
    Liability(Over(p.id, l.id), Over(p.name, l.name), Over(p.kind, l.kind), Over(p.balance, l.balance),
      Over(p.interestRate, l.interestRate), Over(p.notes, l.notes), Over(p.lastUpdated, l.lastUpdated))
  }

  datatype SettingsPatch = SettingsPatch(
    userName: Field<string>, monthlyBudget: Field<real>, categoryBudgets: Field<seq<CategoryBudget>>,
    darkMode: Field<bool>, pinEnabled: Field<bool>, pinHash: Field<Option<string>>,
    autoBackupEnabled: Field<bool>, lastBackupDate: Field<Option<string>>,
    encryptionEnabled: Field<bool>, notificationsEnabled: Field<bool>,
    budgetAlertThreshold: Field<real>)

  const NoSettingsChange := SettingsPatch(Keep, Keep, Keep, Keep, Keep, Keep, Keep, Keep, Keep, Keep, Keep)

  /** `{ ...state.settings, ...settings }`. */
  function MergeSettings(s: AppSettings, p: SettingsPatch): AppSettings {
    AppSettings(Over(p.userName, s.userName), Over(p.monthlyBudget, s.monthlyBudget),
      Over(p.categoryBudgets, s.categoryBudgets), Over(p.darkMode, s.darkMode),
      Over(p.pinEnabled, s.pinEnabled), Over(p.pinHash, s.pinHash),
      Over(p.autoBackupEnabled, s.autoBackupEnabled), Over(p.lastBackupDate, s.lastBackupDate),
      Over(p.encryptionEnabled, s.encryptionEnabled),
      Over(p.notificationsEnabled, s.notificationsEnabled),
      Over(p.budgetAlertThreshold, s.budgetAlertThreshold))
  }

  /** Merging settings: an empty patch changes nothing, merging twice is
      merging once, and a field is replaced exactly when the patch carries it. */
  lemma MergeSettingsLaws(s: AppSettings, p: SettingsPatch)
    ensures MergeSettings(s, NoSettingsChange) == s
    ensures MergeSettings(MergeSettings(s, p), p) == MergeSettings(s, p)
    ensures MergeSettings(s, p).darkMode == (if p.darkMode.SetTo? then p.darkMode.value else s.darkMode)
    ensures MergeSettings(s, p).monthlyBudget == (if p.monthlyBudget.SetTo? then p.monthlyBudget.value else s.monthlyBudget)
    ensures MergeSettings(s, p).pinHash == (if p.pinHash.SetTo? then p.pinHash.value else s.pinHash)
  {
  }

  /** A bill patch without an id keeps the bill's id, so the merged bill
      stays addressable by the id it was updated under. */
  lemma MergeKeepsId(b: Bill, p: BillPatch, s: Subscription, q: SubscriptionPatch)
    requires p.id.Keep? && q.id.Keep?
    ensures MergeBill(b, p).id == b.id && MergeSubscription(s, q).id == s.id
  {
  }
}
