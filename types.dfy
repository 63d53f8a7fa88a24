/** The application's domain types: enumerations, entity records, the
    category lists, the default settings and the seed data. */
module Types {
  import opened CivilDate

  datatype Option<T> = None | Some(value: T)

  type Id = string

  // ---------------------------------------------------------------------
  // Enumerations, each with the string value it is stored as.

  datatype BillStatus = Unpaid | Paid | Overdue | Partial

  function BillStatusValue(s: BillStatus): string {
    match s
    case Unpaid => "unpaid"
    case Paid => "paid"
    case Overdue => "overdue"
    case Partial => "partial"
  }

  function ParseBillStatus(s: string): (r: Option<BillStatus>)
    ensures r.Some? ==> BillStatusValue(r.value) == s
  {
    if s == "unpaid" then Some(Unpaid)
    else if s == "paid" then Some(Paid)
    else if s == "overdue" then Some(Overdue)
    else if s == "partial" then Some(Partial)
    else None
  }

  datatype Frequency = OneTime | Weekly | BiWeekly | Monthly | Yearly

  function FrequencyValue(f: Frequency): string {
    match f
    case OneTime => "one-time"
    case Weekly => "weekly"
    case BiWeekly => "biweekly"
    case Monthly => "monthly"
    case Yearly => "yearly"
  }

  function ParseFrequency(s: string): (r: Option<Frequency>)
    ensures r.Some? ==> FrequencyValue(r.value) == s
  {
    if s == "one-time" then Some(OneTime)
    else if s == "weekly" then Some(Weekly)
    else if s == "biweekly" then Some(BiWeekly)
    else if s == "monthly" then Some(Monthly)
    else if s == "yearly" then Some(Yearly)
    else None
  }

  datatype LoanStatus = Active | PaidOff | Forgiven

  function LoanStatusValue(s: LoanStatus): string {
    match s
    case Active => "active"
    case PaidOff => "paid_off"
    case Forgiven => "forgiven"
  }

  function ParseLoanStatus(s: string): (r: Option<LoanStatus>)
    ensures r.Some? ==> LoanStatusValue(r.value) == s
  {
    if s == "active" then Some(Active)
    else if s == "paid_off" then Some(PaidOff)
    else if s == "forgiven" then Some(Forgiven)
    else None
  }

  datatype AssetType = Cash | Investment | Property | Vehicle | OtherAsset

  function AssetTypeValue(t: AssetType): string {
    match t
    case Cash => "cash"
    case Investment => "investment"
    case Property => "property"
    case Vehicle => "vehicle"
    case OtherAsset => "other"
  }

  datatype LiabilityType = CreditCard | Mortgage | CarLoan | StudentLoan | PersonalLoan | OtherLiability

  function LiabilityTypeValue(t: LiabilityType): string {
    match t
    case CreditCard => "credit_card"
    case Mortgage => "mortgage"
    case CarLoan => "car_loan"
    case StudentLoan => "student_loan"
    case PersonalLoan => "personal_loan"
    case OtherLiability => "other"
  }

  /** `Bill.repeat`: 'none' | 'monthly' | 'yearly'. */
  datatype Repeat = NoRepeat | RepeatMonthly | RepeatYearly

  /** `Subscription.billingCycle`: 'monthly' | 'yearly'. */
  datatype BillingCycle = CycleMonthly | CycleYearly

  /** Parsing is the inverse of the stored value, and distinct values are distinct strings. */
  lemma FrequencyValueRoundTrip(f: Frequency)
    ensures ParseFrequency(FrequencyValue(f)) == Some(f)
  {
  }

  lemma {:induction false} FrequencyValuesDistinct(f: Frequency, g: Frequency)
    ensures FrequencyValue(f) == FrequencyValue(g) <==> f == g
  {
    FrequencyValueRoundTrip(f);
    FrequencyValueRoundTrip(g);
  }

  lemma {:induction false} LoanStatusValuesDistinct(a: LoanStatus, b: LoanStatus)
    ensures ParseLoanStatus(LoanStatusValue(a)) == Some(a)
    ensures LoanStatusValue(a) == LoanStatusValue(b) <==> a == b
  {
    assert ParseLoanStatus(LoanStatusValue(b)) == Some(b);
  }

  lemma {:induction false} BillStatusValuesDistinct(a: BillStatus, b: BillStatus)
    ensures ParseBillStatus(BillStatusValue(a)) == Some(a)
    ensures BillStatusValue(a) == BillStatusValue(b) <==> a == b
  {
    assert ParseBillStatus(BillStatusValue(b)) == Some(b);
  }

  // ---------------------------------------------------------------------
  // Entities. "YYYY-MM-DD" strings are civil dates; optional fields are Options.

  datatype Bill = Bill(
    id: Id,
    name: string,
    category: string,
    amountDue: real,
    dueDate: Date,
    status: BillStatus,
    datePaid: Option<Date>,
    amountPaid: Option<real>,
    notes: Option<string>,
    repeat: Repeat,
    paymentUrl: Option<string>,
    tags: Option<seq<string>>)

  datatype Subscription = Subscription(
    id: Id,
    name: string,
    amount: real,
    billingCycle: BillingCycle,
    nextBillingDate: Date,
    category: string,
    notes: Option<string>,
    paymentUrl: Option<string>,
    lastPaidDate: Option<Date>,
    tags: Option<seq<string>>)

  datatype Income = Income(
    id: Id,
    sourceName: string,
    amount: real,
    frequency: Frequency,
    nextExpectedDate: Date,
    lastReceivedDate: Option<Date>,
    notes: Option<string>,
    tags: Option<seq<string>>)

  datatype Expense = Expense(
    id: Id,
    date: Date,
    category: string,
    description: string,
    amount: real,
    tags: Option<seq<string>>,
    recurringExpenseId: Option<Id>)

  datatype RecurringExpense = RecurringExpense(
    id: Id,
    description: string,
    amount: real,
    category: string,
    frequency: Frequency,
    startDate: Date,
    nextDueDate: Date,
    lastGeneratedDate: Option<Date>,
    isActive: bool,
    tags: Option<seq<string>>)

  datatype SavingsGoal = SavingsGoal(
    id: Id,
    name: string,
    targetAmount: real,
    currentAmount: real,
    deadline: Option<Date>,
    icon: Option<string>,
    notes: Option<string>)

  datatype Payment = Payment(id: Id, date: Date, amount: real, notes: Option<string>)

  /** `BorrowedMoney` and `LentMoney` have the same shape: `counterparty` is the
      lender or the borrower, `payments` the payments or the repayments. */
  datatype Loan = Loan(
    id: Id,
    counterparty: string,
    originalAmount: real,
    currentBalance: real,
    startDate: Date,
    dueDate: Option<Date>,
    notes: Option<string>,
    status: LoanStatus,
    nextPaymentAmount: Option<real>,
    nextPaymentDueDate: Option<Date>,
    payments: seq<Payment>,
    tags: Option<seq<string>>)

  datatype Asset = Asset(
    id: Id,
    name: string,
    kind: AssetType,
    value: real,
    notes: Option<string>,
    lastUpdated: Date)

  datatype Liability = Liability(
    id: Id,
    name: string,
    kind: LiabilityType,
    balance: real,
    interestRate: Option<real>,
    notes: Option<string>,
    lastUpdated: Date)

  datatype NetWorthSnapshot = NetWorthSnapshot(
    date: Date,
    totalAssets: real,
    totalLiabilities: real,
    netWorth: real)

  datatype CategoryBudget = CategoryBudget(category: string, limit: real)

  datatype AppSettings = AppSettings(
    userName: string,
    monthlyBudget: real,
    categoryBudgets: seq<CategoryBudget>,
    darkMode: bool,
    pinEnabled: bool,
    pinHash: Option<string>,
    autoBackupEnabled: bool,
    lastBackupDate: Option<string>,
    encryptionEnabled: bool,
    notificationsEnabled: bool,
    budgetAlertThreshold: real)

  datatype AppData = AppData(
    bills: seq<Bill>,
    subscriptions: seq<Subscription>,
    income: seq<Income>,
    expenses: seq<Expense>,
    recurringExpenses: seq<RecurringExpense>,
    savings: seq<SavingsGoal>,
    borrowed: seq<Loan>,
    lent: seq<Loan>,
    assets: seq<Asset>,
    liabilities: seq<Liability>,
    netWorthHistory: seq<NetWorthSnapshot>,
    settings: AppSettings,
    tags: seq<string>)

  /** The backup file's content: the nine keys the settings page exports and imports. */
  datatype Backup = Backup(
    bills: seq<Bill>,
    subscriptions: seq<Subscription>,
    income: seq<Income>,
    expenses: seq<Expense>,
    savings: seq<SavingsGoal>,
    borrowed: seq<Loan>,
    lent: seq<Loan>,
    settings: AppSettings,
    tags: seq<string>)

  /** The id of each kind of record, the key the store's actions look records up by. */
  function BillId(x: Bill): Id { x.id }
  function SubscriptionId(x: Subscription): Id { x.id }
  function IncomeId(x: Income): Id { x.id }
  function ExpenseId(x: Expense): Id { x.id }
  function RecurringExpenseId(x: RecurringExpense): Id { x.id }
  function SavingsGoalId(x: SavingsGoal): Id { x.id }
  function LoanId(x: Loan): Id { x.id }
  function AssetId(x: Asset): Id { x.id }
  function LiabilityId(x: Liability): Id { x.id }

  // ---------------------------------------------------------------------
  // Constants.

  const CATEGORIES: seq<string> := [
    "Groceries", "Dining", "Transportation", "Utilities", "Entertainment",
    "Shopping", "Health", "Education", "Housing", "Insurance",
    "Personal Care", "Gifts", "Travel", "Subscriptions", "Other"]

  const BILL_CATEGORIES: seq<string> := [
    "Utilities", "Housing", "Insurance", "Phone", "Internet", "Subscriptions", "Other"]

  const DEFAULT_SETTINGS: AppSettings := AppSettings(
    userName := "",
    monthlyBudget := 0.0,
    categoryBudgets := [],
    darkMode := false,
    pinEnabled := false,
    pinHash := None,
    autoBackupEnabled := false,
    lastBackupDate := None,
    encryptionEnabled := false,
    notificationsEnabled := false,
    budgetAlertThreshold := 80.0)

  const SEED_DATA: AppData := AppData(
    bills := [], subscriptions := [], income := [], expenses := [],
    recurringExpenses := [], savings := [], borrowed := [], lent := [],
    assets := [], liabilities := [], netWorthHistory := [],
    settings := DEFAULT_SETTINGS, tags := [])

  predicate NoDuplicates(xs: seq<string>) {
    forall i, j :: 0 <= i < j < |xs| ==> xs[i] != xs[j]
  }

  lemma CategoriesShape()
    ensures |CATEGORIES| == 15 && NoDuplicates(CATEGORIES)
    ensures |BILL_CATEGORIES| == 7 && NoDuplicates(BILL_CATEGORIES)
    ensures CATEGORIES[14] == "Other" && BILL_CATEGORIES[6] == "Other"
  {
  }

  lemma DefaultSettingsShape()
    ensures DEFAULT_SETTINGS.budgetAlertThreshold == 80.0
    ensures DEFAULT_SETTINGS.monthlyBudget == 0.0
    ensures DEFAULT_SETTINGS.categoryBudgets == []
    ensures !DEFAULT_SETTINGS.pinEnabled && DEFAULT_SETTINGS.pinHash.None?
    ensures !DEFAULT_SETTINGS.notificationsEnabled && !DEFAULT_SETTINGS.darkMode
  {
  }

  lemma SeedDataShape()
    ensures SEED_DATA.bills == [] && SEED_DATA.subscriptions == [] && SEED_DATA.income == []
    ensures SEED_DATA.expenses == [] && SEED_DATA.recurringExpenses == [] && SEED_DATA.savings == []
    ensures SEED_DATA.borrowed == [] && SEED_DATA.lent == []
    ensures SEED_DATA.assets == [] && SEED_DATA.liabilities == [] && SEED_DATA.netWorthHistory == []
    ensures SEED_DATA.settings == DEFAULT_SETTINGS && SEED_DATA.tags == []
  {
  }
}
