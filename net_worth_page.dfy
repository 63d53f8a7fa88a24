/** The net-worth page: the totals, when a snapshot is recorded, the chart
    of the latest snapshots, the asset and liability forms, and the type
    labels. Blank optional inputs are `None`. */
module NetWorthPage {
  import opened CivilDate
  import opened Types
  import opened SeqUtil
  import opened Collection
  import opened Patches
  import opened NetWorthHistory

  /** `netWorth`. */
  function NetWorth(assets: seq<Asset>, liabilities: seq<Liability>): real {
    AssetTotal(assets) - LiabilityTotal(liabilities)
  }

  /** The effect records a snapshot whenever there is an asset or a liability. */
  predicate RecordsSnapshot(assets: seq<Asset>, liabilities: seq<Liability>) {
    |assets| > 0 || |liabilities| > 0
  }

  /** The page's net worth is the one the snapshot records, and a snapshot is
      skipped only when there is nothing to record: totals and net worth all 0. */
  lemma SnapshotAgreesWithPage(assets: seq<Asset>, liabilities: seq<Liability>, today: Date)
    ensures TakeSnapshot(assets, liabilities, today).netWorth == NetWorth(assets, liabilities)
    ensures !RecordsSnapshot(assets, liabilities) ==>
      var s := TakeSnapshot(assets, liabilities, today);
      s.totalAssets == 0.0 && s.totalLiabilities == 0.0 && s.netWorth == 0.0
  {
  }

  /** One point of the chart. */
  datatype ChartPoint = ChartPoint(date: Date, assets: real, liabilities: real, netWorth: real)

  function SnapshotKey(s: NetWorthSnapshot): real {
    DayNumber(s.date) as real
  }

  function ToPoint(s: NetWorthSnapshot): ChartPoint {
    ChartPoint(s.date, s.totalAssets, s.totalLiabilities, s.netWorth)
  }

  /** The snapshots the chart draws: oldest first, the last twelve. */
  function ChartSnapshots(history: seq<NetWorthSnapshot>): seq<NetWorthSnapshot> {
    TakeLast(SortAsc(history, SnapshotKey), 12)
  }

  /** `chartData`. */
  function ChartData(history: seq<NetWorthSnapshot>): (r: seq<ChartPoint>)
    ensures |r| == |ChartSnapshots(history)|
    ensures forall i :: 0 <= i < |r| ==> r[i] == ToPoint(ChartSnapshots(history)[i])
  {
    seq(|ChartSnapshots(history)|, i requires 0 <= i < |ChartSnapshots(history)| => ToPoint(ChartSnapshots(history)[i]))
  }

  /** The chart shows at most twelve recorded snapshots, oldest first; a
      snapshot left out means twelve are shown, none older than it. */
  lemma ChartMeaning(history: seq<NetWorthSnapshot>, s: NetWorthSnapshot)
    ensures |ChartData(history)| == if |history| < 12 then |history| else 12
    ensures SortedAsc(ChartSnapshots(history), SnapshotKey)
    ensures s in ChartSnapshots(history) ==> s in history
    ensures s in history && s !in ChartSnapshots(history) ==>
      |ChartSnapshots(history)| == 12 &&
      forall i :: 0 <= i < 12 ==> DayNumber(ChartSnapshots(history)[i].date) >= DayNumber(s.date)
  {
    var sorted := SortAsc(history, SnapshotKey);
    MultisetMembership(sorted, history, s);
    TakeLastSortedAsc(sorted, SnapshotKey, 12);
    if s in history && s !in TakeLast(sorted, 12) {
      LastOfSortedAsc(sorted, SnapshotKey, 12, s);
    }
  }

  /** The asset form, its value already parsed. */
  datatype AssetForm = AssetForm(name: string, kind: AssetType, value: real, notes: string)

  datatype AssetSubmit = UpdateAsset(id: Id, patch: AssetPatch) | AddAsset(asset: Asset)

  /** Blank notes become `undefined`. */
  function NotesOf(notes: string): (r: Option<string>)
    ensures r.None? <==> notes == ""
    ensures r.Some? ==> r.value == notes
  {
    if notes == "" then None else Some(notes)
  }

  /** `handleAssetSubmit`: the asset is stamped with today's date; the one
      being edited is updated, else a new one is added (the store gives it
      its id). */
  function SubmitAsset(editing: Option<Id>, form: AssetForm, today: Date): (r: AssetSubmit)
    ensures r.UpdateAsset? <==> editing.Some?
    ensures r.AddAsset? ==> r.asset.lastUpdated == today && r.asset.notes == NotesOf(form.notes)
  {
    if editing.Some? then
      UpdateAsset(editing.value, AssetPatch(Keep, SetTo(form.name), SetTo(form.kind), SetTo(form.value),
        SetTo(NotesOf(form.notes)), SetTo(today)))
    else
      AddAsset(Asset("", form.name, form.kind, form.value, NotesOf(form.notes), today))
  }

  /** Editing an asset replaces all its fields but the id, stamps today's
      date, and clears the notes when they are left blank. */
  lemma SubmitAssetEdit(a: Asset, form: AssetForm, today: Date)
    ensures MergeAsset(a, SubmitAsset(Some(a.id), form, today).patch)
      == Asset(a.id, form.name, form.kind, form.value, NotesOf(form.notes), today)
    ensures form.notes == "" ==> MergeAsset(a, SubmitAsset(Some(a.id), form, today).patch).notes.None?
  {
  }

  /** The liability form; a blank interest rate is `None`. */
  datatype LiabilityForm = LiabilityForm(name: string, kind: LiabilityType, balance: real,
    interestRate: Option<real>, notes: string)

  datatype LiabilitySubmit = UpdateLiability(id: Id, patch: LiabilityPatch) | AddLiability(liability: Liability)

  /** `handleLiabilitySubmit`: as for assets, with a blank interest rate
      becoming `undefined`. */
  function SubmitLiability(editing: Option<Id>, form: LiabilityForm, today: Date): (r: LiabilitySubmit)
    ensures r.UpdateLiability? <==> editing.Some?
    ensures r.AddLiability? ==> r.liability.lastUpdated == today && r.liability.interestRate == form.interestRate
  {
    if editing.Some? then
      UpdateLiability(editing.value, LiabilityPatch(Keep, SetTo(form.name), SetTo(form.kind), SetTo(form.balance),
        SetTo(form.interestRate), SetTo(NotesOf(form.notes)), SetTo(today)))
    else
      AddLiability(Liability("", form.name, form.kind, form.balance, form.interestRate, NotesOf(form.notes), today))
  }

  /** Editing a liability with the interest rate left blank removes its rate. */
  lemma SubmitLiabilityEdit(l: Liability, form: LiabilityForm, today: Date)
    ensures MergeLiability(l, SubmitLiability(Some(l.id), form, today).patch)
      == Liability(l.id, form.name, form.kind, form.balance, form.interestRate, NotesOf(form.notes), today)
    ensures form.interestRate.None? ==> MergeLiability(l, SubmitLiability(Some(l.id), form, today).patch).interestRate.None?
  {
  }

  /** `getAssetTypeLabel`: every type has an option, so the fallback to the
      raw type value is never taken. */
  function AssetTypeLabel(t: AssetType): string {
    match t
    case Cash => "Cash & Bank"
    case Investment => "Investments"
    case Property => "Real Estate"
    case Vehicle => "Vehicles"
    case OtherAsset => "Other"
  }

  /** `getLiabilityTypeLabel`. */
  function LiabilityTypeLabel(t: LiabilityType): string {
    match t
    case CreditCard => "Credit Card"
    case Mortgage => "Mortgage"
    case CarLoan => "Car Loan"
    case StudentLoan => "Student Loan"
    case PersonalLoan => "Personal Loan"
    case OtherLiability => "Other"
  }

  /** Different types show different labels, and no label is the raw stored value. */
  lemma TypeLabelsDistinct(a: AssetType, b: AssetType, l: LiabilityType, m: LiabilityType)
    ensures AssetTypeLabel(a) == AssetTypeLabel(b) <==> a == b
    ensures LiabilityTypeLabel(l) == LiabilityTypeLabel(m) <==> l == m
    ensures AssetTypeLabel(a) != AssetTypeValue(a) && LiabilityTypeLabel(l) != LiabilityTypeValue(l)
  {
  }
}
