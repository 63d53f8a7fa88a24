/** Budget notifications: the tier a spending level falls into, and the
    notification shown for it when the browser has granted permission. */
module Notifications {
  import opened Types
  import opened JsNumber

  /** `Notification.permission`, or no Notification API at all. */
  datatype Permission = Granted | Denied | NotAsked | Unsupported

  datatype Tier = Exceeded | Warning | Heads | Silent

  datatype Notice = Notice(title: string, tag: string)

  /** `Math.round((spent / limit) * 100)`. */
  function RoundedPercent(spent: real, limit: real): Num {
    Round(Percent(spent, limit))
  }

  /** `showBudgetWarning`'s three tiers: at least 100, 90 or 80 percent. */
  function CategoryTier(spent: real, limit: real): Tier {
    var p := RoundedPercent(spent, limit);
    if AtLeast(p, 100.0) then Exceeded
    else if AtLeast(p, 90.0) then Warning
    else if AtLeast(p, 80.0) then Heads
    else Silent
  }

  /** `showOverallBudgetWarning` has only the top two tiers. */
  function OverallTier(spent: real, limit: real): (t: Tier)
    ensures t != Heads
  {
    var p := RoundedPercent(spent, limit);
    if AtLeast(p, 100.0) then Exceeded
    else if AtLeast(p, 90.0) then Warning
    else Silent
  }

  /** `showNotification`: only with permission granted. */
  function Show(permission: Permission, n: Notice): Option<Notice> {
    if permission == Granted then Some(n) else None
  }

  function CategoryNotice(category: string, t: Tier): Notice {
    match t
    case Exceeded => Notice(category + " Budget Exceeded!", "budget-exceeded-" + category)
    case Warning => Notice(category + " Budget Warning", "budget-warning-" + category)
    case Heads => Notice(category + " Budget Alert", "budget-alert-" + category)
    case Silent => Notice("", "")
  }

  function OverallNotice(t: Tier): Notice {
    match t
    case Exceeded => Notice("Monthly Budget Exceeded!", "monthly-budget-exceeded")
    case Warning => Notice("Monthly Budget Warning", "monthly-budget-warning")
    case _ => Notice("", "")
  }

  /** `showBudgetWarning(category, spent, limit)`: what, if anything, is shown. */
  function BudgetWarning(permission: Permission, category: string, spent: real, limit: real): (r: Option<Notice>)
    ensures r.Some? <==> permission == Granted && CategoryTier(spent, limit) != Silent
  {
    var t := CategoryTier(spent, limit);
    if t == Silent then None else Show(permission, CategoryNotice(category, t))
  }

  /** `showOverallBudgetWarning(spent, limit)`. */
  function OverallBudgetWarning(permission: Permission, spent: real, limit: real): (r: Option<Notice>)
    ensures r.Some? <==> permission == Granted && OverallTier(spent, limit) != Silent
  {
    var t := OverallTier(spent, limit);
    if t == Silent then None else Show(permission, OverallNotice(t))
  }

  /** With a positive limit the category tiers are bands of the exact ratio,
      shifted down by half a percent by the rounding. */
  lemma CategoryTierBands(spent: real, limit: real)
    requires limit > 0.0
    ensures CategoryTier(spent, limit) == Exceeded <==> spent * 100.0 >= 99.5 * limit
    ensures CategoryTier(spent, limit) == Warning <==> 89.5 * limit <= spent * 100.0 < 99.5 * limit
    ensures CategoryTier(spent, limit) == Heads <==> 79.5 * limit <= spent * 100.0 < 89.5 * limit
    ensures CategoryTier(spent, limit) == Silent <==> spent * 100.0 < 79.5 * limit
  {
    var x := spent / limit * 100.0;
    PercentPositive(spent, limit, 0.0);
    assert RoundedPercent(spent, limit) == Round(Finite(x));
    RoundAtLeast(x, 100);
    RoundAtLeast(x, 90);
    RoundAtLeast(x, 80);
    RatioComparison(spent, limit, 99.5);
    RatioComparison(spent, limit, 89.5);
    RatioComparison(spent, limit, 79.5);
  }

  lemma RatioComparison(spent: real, limit: real, c: real)
    requires limit > 0.0
    ensures spent / limit * 100.0 >= c <==> spent * 100.0 >= c * limit
  {
    var x := spent / limit * 100.0;
    assert x * limit == spent * 100.0;
    if x >= c {
      assert (x - c) * limit >= 0.0;
    } else {
      assert (c - x) * limit > 0.0;
    }
  }

  /** The overall tiers are the same bands without the lowest one: below
      89.5 percent nothing is shown, whatever threshold made the caller ask. */
  lemma OverallTierBands(spent: real, limit: real)
    requires limit > 0.0
    ensures OverallTier(spent, limit) == Exceeded <==> CategoryTier(spent, limit) == Exceeded
    ensures OverallTier(spent, limit) == Warning <==> CategoryTier(spent, limit) == Warning
    ensures OverallTier(spent, limit) == Silent <==> spent * 100.0 < 89.5 * limit
  {
    CategoryTierBands(spent, limit);
  }

  /** A zero limit: any spending is "exceeded" (the ratio is +Infinity) and
      no spending shows nothing (the ratio is NaN). */
  lemma ZeroLimit(spent: real)
    ensures spent > 0.0 ==> CategoryTier(spent, 0.0) == Exceeded && OverallTier(spent, 0.0) == Exceeded
    ensures spent <= 0.0 ==> CategoryTier(spent, 0.0) == Silent && OverallTier(spent, 0.0) == Silent
  {
  }

  /** Each tier has its own tag, and the tag names the category. */
  lemma CategoryTagsDistinct(category: string, t1: Tier, t2: Tier)
    requires t1 != Silent && t2 != Silent && t1 != t2
    ensures CategoryNotice(category, t1).tag != CategoryNotice(category, t2).tag
    ensures exists prefix :: CategoryNotice(category, t1).tag == prefix + category
  {
    var a := CategoryNotice(category, t1).tag;
    var b := CategoryNotice(category, t2).tag;
    assert a[7] != b[7];
    if t1 == Exceeded { assert a == "budget-exceeded-" + category; }
    else if t1 == Warning { assert a == "budget-warning-" + category; }
    else { assert a == "budget-alert-" + category; }
  }
}
