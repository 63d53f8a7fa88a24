/** The settings page: saving the profile, exporting and importing a
    backup, resetting everything, and the dark-mode switch. The backup file
    is modelled as already-parsed JSON: each array-valued key is either an
    array or something else, and the settings key is present (truthy) or not. */
module SettingsPage {
  import opened CivilDate
  import opened Types
  import opened Collection
  import opened Patches
  import opened Store

  /** `parseFloat(monthlyBudget) || 0`: `None` is input that does not parse
      (NaN), which like 0 falls back to 0. */
  function ParseBudget(input: Option<real>): (r: real)
    ensures input.None? ==> r == 0.0
    ensures input.Some? ==> r == input.value
  {
    if input.Some? && input.value != 0.0 then input.value else 0.0
  }

  /** The patch `handleSaveProfile` sends. */
  function ProfilePatch(userName: string, budget: Option<real>): SettingsPatch {
    NoSettingsChange.(userName := SetTo(userName), monthlyBudget := SetTo(ParseBudget(budget)))
  }

  /** Saving the profile sets the name and the budget and nothing else. */
  lemma SaveProfileEffect(s: AppSettings, userName: string, budget: Option<real>)
    ensures MergeSettings(s, ProfilePatch(userName, budget))
      == s.(userName := userName, monthlyBudget := if budget.Some? then budget.value else 0.0)
  {
  }

  method HandleSaveProfile(store: AppStore, userName: string, budget: Option<real>)
    modifies store`settings
    ensures store.settings == old(store.settings).(userName := userName, monthlyBudget := ParseBudget(budget))
  {
    store.UpdateSettings(ProfilePatch(userName, budget));
  }

  /** `handleExport`: the nine exported keys. */
  function Export(d: AppData): (b: Backup)
    ensures b.bills == d.bills && b.subscriptions == d.subscriptions && b.income == d.income
    ensures b.expenses == d.expenses && b.savings == d.savings && b.borrowed == d.borrowed
    ensures b.lent == d.lent && b.settings == d.settings && b.tags == d.tags
  {
    Backup(d.bills, d.subscriptions, d.income, d.expenses, d.savings, d.borrowed, d.lent, d.settings, d.tags)
  }

  /** A key that should hold an array, as found in the parsed file. */
  datatype JsonArray<T> = Array(items: seq<T>) | NotAnArray

  /** The parsed file: `settings` is `None` when missing or falsy. */
  datatype JsonBackup = JsonBackup(
    bills: JsonArray<Bill>,
    subscriptions: JsonArray<Subscription>,
    income: JsonArray<Income>,
    expenses: JsonArray<Expense>,
    savings: JsonArray<SavingsGoal>,
    borrowed: JsonArray<Loan>,
    lent: JsonArray<Loan>,
    settings: Option<AppSettings>,
    tags: JsonArray<string>)

  /** `Array.isArray(x) ? x : []`. */
  function ArrayOr<T>(a: JsonArray<T>): (r: seq<T>)
    ensures a.Array? ==> r == a.items
    ensures a.NotAnArray? ==> r == []
  {
    if a.Array? then a.items else []
  }

  /** What the exported file parses back to. */
  function ToJson(b: Backup): JsonBackup {
    JsonBackup(Array(b.bills), Array(b.subscriptions), Array(b.income), Array(b.expenses), Array(b.savings),
      Array(b.borrowed), Array(b.lent), Some(b.settings), Array(b.tags))
  }

  /** `validatedData`: a key that is not an array imports as empty, and
      missing settings keep the current ones. */
  function Validate(json: JsonBackup, current: AppSettings): (b: Backup)
    ensures json.bills.NotAnArray? ==> b.bills == []
    ensures json.settings.None? ==> b.settings == current
    ensures json.settings.Some? ==> b.settings == json.settings.value
  {
    Backup(ArrayOr(json.bills), ArrayOr(json.subscriptions), ArrayOr(json.income), ArrayOr(json.expenses),
      ArrayOr(json.savings), ArrayOr(json.borrowed), ArrayOr(json.lent),
      if json.settings.Some? then json.settings.value else current, ArrayOr(json.tags))
  }

  /** Importing an exported file gives back exactly what was exported,
      whatever the settings in place at import time. */
  lemma ExportImportRoundTrip(d: AppData, current: AppSettings)
    ensures Validate(ToJson(Export(d)), current) == Export(d)
  {
  }

  /** A file whose keys are all missing clears the nine collections and keeps the settings. */
  lemma ImportEmptyFile(current: AppSettings)
    ensures Validate(JsonBackup(NotAnArray, NotAnArray, NotAnArray, NotAnArray, NotAnArray, NotAnArray,
      NotAnArray, None, NotAnArray), current) == Backup([], [], [], [], [], [], [], current, [])
  {
  }

  /** What reading the chosen file gave. */
  datatype FileRead = Parsed(json: JsonBackup) | ParseFailure

  /** `handleFileChange`: nothing happens without a file or when it does not
      parse; otherwise the validated data is imported. */
  method HandleFileChange(store: AppStore, file: Option<FileRead>)
    modifies store`bills, store`subscriptions, store`income, store`expenses, store`savings,
      store`borrowed, store`lent, store`settings, store`tags
    ensures (file.None? || file.value.ParseFailure?) ==> store.Data() == old(store.Data())
    ensures file.Some? && file.value.Parsed? ==>
      var b := Validate(file.value.json, old(store.settings));
      store.bills == b.bills && store.subscriptions == b.subscriptions && store.income == b.income &&
      store.expenses == b.expenses && store.savings == b.savings && store.borrowed == b.borrowed &&
      store.lent == b.lent && store.settings == b.settings && store.tags == b.tags
  {
    if file.Some? && file.value.Parsed? {
      store.ImportData(Validate(file.value.json, store.settings));
    }
  }

  /** `handleReset`. */
  method HandleReset(store: AppStore)
    modifies store
    ensures store.Data() == SEED_DATA && store.Valid()
  {
    store.ResetData();
  }

  /** The patch `toggleDarkMode` sends. */
  function DarkModePatch(s: AppSettings): SettingsPatch {
    NoSettingsChange.(darkMode := SetTo(!s.darkMode))
  }

  /** The switch flips dark mode and nothing else, and flipping it twice
      restores the settings. */
  lemma ToggleDarkModeLaws(s: AppSettings)
    ensures MergeSettings(s, DarkModePatch(s)) == s.(darkMode := !s.darkMode)
    ensures var t := MergeSettings(s, DarkModePatch(s)); MergeSettings(t, DarkModePatch(t)) == s
  {
  }

  method ToggleDarkMode(store: AppStore)
    modifies store`settings
    ensures store.settings == old(store.settings).(darkMode := !old(store.settings).darkMode)
  {
    store.UpdateSettings(DarkModePatch(store.settings));
  }
}
