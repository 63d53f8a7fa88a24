/** The search dialog: the results for a query over the pages and the
    store's records, and the keyboard selection among them. */
module SearchDialog {
  import opened Types
  import opened Text
  import opened SeqUtil

  datatype ResultKind =
    | PageResult | BillResult | SubscriptionResult | IncomeResult
    | ExpenseResult | SavingsResult | BorrowedResult | LentResult

  /** The order of the groups in the result list. */
  function Rank(k: ResultKind): nat {
    match k
    case PageResult => 0
    case BillResult => 1
    case SubscriptionResult => 2
    case IncomeResult => 3
    case ExpenseResult => 4
    case SavingsResult => 5
    case BorrowedResult => 6
    case LentResult => 7
  }

  /** A result as shown and followed (icon and subtitle left out). */
  datatype SearchResult = SearchResult(kind: ResultKind, id: Option<Id>, title: string, path: string,
    tags: Option<seq<string>>)

  function Page(title: string, path: string): SearchResult {
    SearchResult(PageResult, None, title, path, None)
  }

  const PAGES: seq<SearchResult> := [
    Page("Dashboard", "/"),
    Page("Bills & Subscriptions", "/bills"),
    Page("Income", "/income"),
    Page("Expenses", "/expenses"),
    Page("Savings", "/savings"),
    Page("Loans", "/loans"),
    Page("Budget", "/budget"),
    Page("Calendar", "/calendar"),
    Page("Net Worth", "/net-worth"),
    Page("Analytics", "/analytics"),
    Page("Reports", "/reports"),
    Page("Settings", "/settings")]

  /** A record as the search sees it: the result it would show, the texts
      searched, and its tags, any of which may match. */
  datatype Candidate = Candidate(result: SearchResult, fields: seq<string>, tags: Option<seq<string>>)

  /** `text.toLowerCase().includes(q)`, `q` already lower-cased. */
  predicate Hit(text: string, q: string) {
    Contains(Lower(text), q)
  }

  predicate Matches(c: Candidate, q: string) {
    (exists f :: f in c.fields && Hit(f, q)) || (c.tags.Some? && exists t :: t in c.tags.value && Hit(t, q))
  }

  function PageCandidate(p: SearchResult): Candidate {
    Candidate(p, [p.title], None)
  }

  function BillCandidate(b: Bill): Candidate {
    Candidate(SearchResult(BillResult, Some(b.id), b.name, "/bills", b.tags), [b.name, b.category], b.tags)
  }

  function SubscriptionCandidate(s: Subscription): Candidate {
    Candidate(SearchResult(SubscriptionResult, Some(s.id), s.name, "/bills", s.tags), [s.name, s.category], s.tags)
  }

  function IncomeCandidate(i: Income): Candidate {
    Candidate(SearchResult(IncomeResult, Some(i.id), i.sourceName, "/income", i.tags), [i.sourceName], i.tags)
  }

  function ExpenseCandidate(e: Expense): Candidate {
    Candidate(SearchResult(ExpenseResult, Some(e.id), e.description, "/expenses", e.tags),
      [e.description, e.category], e.tags)
  }

  /** Savings goals are searched by name only and show no tags. */
  function SavingsCandidate(g: SavingsGoal): Candidate {
    Candidate(SearchResult(SavingsResult, Some(g.id), g.name, "/savings", None), [g.name], None)
  }

  function BorrowedCandidate(l: Loan): Candidate {
    Candidate(SearchResult(BorrowedResult, Some(l.id), "Borrowed from " + l.counterparty, "/loans", l.tags),
      [l.counterparty], l.tags)
  }

  function LentCandidate(l: Loan): Candidate {
    Candidate(SearchResult(LentResult, Some(l.id), "Lent to " + l.counterparty, "/loans", l.tags),
      [l.counterparty], l.tags)
  }

  /** What one `forEach` pushes: the results of the matching records, in order. */
  function Matching<T>(xs: seq<T>, q: string, candidate: T -> Candidate): seq<SearchResult> {
    if xs == [] then []
    else
      var last := candidate(xs[|xs| - 1]);
      Matching(xs[..|xs| - 1], q, candidate) + (if Matches(last, q) then [last.result] else [])
  }

  /** One `forEach` over a collection, pushing each match onto `matches`. */
  method PushMatches<T>(matches: seq<SearchResult>, xs: seq<T>, q: string, candidate: T -> Candidate)
    returns (r: seq<SearchResult>)
    ensures r == matches + Matching(xs, q, candidate)
  {
    r := matches;
    for i := 0 to |xs|
      invariant r == matches + Matching(xs[..i], q, candidate)
    {
      assert xs[..i + 1][..i] == xs[..i];
      var c := candidate(xs[i]);
      if Matches(c, q) {
        r := r + [c.result];
      }
    }
    assert xs[..|xs|] == xs;
  }

  /** The `k`-th group searched: pages, bills, subscriptions, income,
      expenses, savings goals, money borrowed, money lent. */
  function Group(k: nat, q: string, d: AppData): seq<SearchResult>
    requires k < 8
  {
    match k
    case 0 => Matching(PAGES, q, PageCandidate)
    case 1 => Matching(d.bills, q, BillCandidate)
    case 2 => Matching(d.subscriptions, q, SubscriptionCandidate)
    case 3 => Matching(d.income, q, IncomeCandidate)
    case 4 => Matching(d.expenses, q, ExpenseCandidate)
    case 5 => Matching(d.savings, q, SavingsCandidate)
    case 6 => Matching(d.borrowed, q, BorrowedCandidate)
    case 7 => Matching(d.lent, q, LentCandidate)
  }

  /** The matches of the first `n` groups, one group after the other. */
  function MatchesUpTo(n: nat, q: string, d: AppData): seq<SearchResult>
    requires n <= 8
  {
    if n == 0 then [] else MatchesUpTo(n - 1, q, d) + Group(n - 1, q, d)
  }

  /** Every match, group by group. */
  function AllMatches(q: string, d: AppData): seq<SearchResult> {
    MatchesUpTo(8, q, d)
  }

  /** `results`: a blank query lists every page; otherwise the first ten
      matches of the lower-cased query. */
  function SearchResults(query: string, d: AppData): seq<SearchResult> {
    if IsBlank(query) then PAGES else Take(AllMatches(Lower(query), d), 10)
  }

  method Results(query: string, d: AppData) returns (results: seq<SearchResult>)
    ensures results == SearchResults(query, d)
  {
    if IsBlank(query) {
      return PAGES;
    }
    var matches := CollectMatches(Lower(query), d);
    results := Take(matches, 10);
  }

  /** The eight `forEach` loops, one after the other. */
  method CollectMatches(q: string, d: AppData) returns (matches: seq<SearchResult>)
    ensures matches == AllMatches(q, d)
  {
    matches := [];
    for k := 0 to 8
      invariant matches == MatchesUpTo(k, q, d)
    {
      matches := PushGroup(matches, k, q, d);
    }
  }

  /** The `forEach` of the `k`-th group. */
  method PushGroup(matches: seq<SearchResult>, k: nat, q: string, d: AppData) returns (r: seq<SearchResult>)
    requires k < 8
    ensures r == matches + Group(k, q, d)
  {
    match k
    case 0 => r := PushMatches(matches, PAGES, q, PageCandidate);
    case 1 => r := PushMatches(matches, d.bills, q, BillCandidate);
    case 2 => r := PushMatches(matches, d.subscriptions, q, SubscriptionCandidate);
    case 3 => r := PushMatches(matches, d.income, q, IncomeCandidate);
    case 4 => r := PushMatches(matches, d.expenses, q, ExpenseCandidate);
    case 5 => r := PushMatches(matches, d.savings, q, SavingsCandidate);
    case 6 => r := PushMatches(matches, d.borrowed, q, BorrowedCandidate);
    case 7 => r := PushMatches(matches, d.lent, q, LentCandidate);
  }

  /** A collection contributes exactly the results of its matching records. */
  lemma {:induction false} MatchingMembership<T>(xs: seq<T>, q: string, candidate: T -> Candidate, r: SearchResult)
    ensures r in Matching(xs, q, candidate) <==> exists x :: x in xs && Matches(candidate(x), q) && candidate(x).result == r
  {
    if xs != [] {
      var init := xs[..|xs| - 1];
      MatchingMembership(init, q, candidate, r);
      assert xs == init + [xs[|xs| - 1]];
    }
  }

  /** Every result of `rs` belongs to the group ranked `k`. */
  predicate AllOfRank(rs: seq<SearchResult>, k: nat)
    decreases |rs|
  {
    rs == [] || (Rank(rs[0].kind) == k && AllOfRank(rs[1..], k))
  }

  /** Every result of `rs` ranks no later than `k`. */
  predicate RanksAtMost(rs: seq<SearchResult>, k: nat)
    decreases |rs|
  {
    rs == [] || (Rank(rs[0].kind) <= k && RanksAtMost(rs[1..], k))
  }

  /** Results are listed group by group: each ranks no earlier than the one before. */
  predicate GroupedByKind(rs: seq<SearchResult>)
    decreases |rs|
  {
    |rs| <= 1 || (Rank(rs[0].kind) <= Rank(rs[1].kind) && GroupedByKind(rs[1..]))
  }

  /** Listed group by group means no result ranks earlier than one listed before it. */
  lemma {:induction false} GroupedMeaning(rs: seq<SearchResult>)
    requires GroupedByKind(rs)
    ensures forall i, j :: 0 <= i < j < |rs| ==> Rank(rs[i].kind) <= Rank(rs[j].kind)
    decreases |rs|
  {
    if |rs| > 1 {
      GroupedMeaning(rs[1..]);
      forall i, j | 0 <= i < j < |rs|
        ensures Rank(rs[i].kind) <= Rank(rs[j].kind)
      {
        if i > 0 {
          assert rs[i] == rs[1..][i - 1] && rs[j] == rs[1..][j - 1];
        } else if j > 1 {
          assert rs[1] == rs[1..][0] && rs[j] == rs[1..][j - 1];
        }
      }
    }
  }

  /** The results of one collection all belong to its group. */
  lemma {:induction false} MatchingKind<T>(xs: seq<T>, q: string, candidate: T -> Candidate, k: nat)
    requires forall x :: x in xs ==> Rank(candidate(x).result.kind) == k
    ensures AllOfRank(Matching(xs, q, candidate), k)
    decreases |xs|
  {
    if xs != [] {
      var init := xs[..|xs| - 1];
      assert forall x :: x in init ==> x in xs;
      MatchingKind(init, q, candidate, k);
      var last := candidate(xs[|xs| - 1]);
      AppendKind(Matching(init, q, candidate), if Matches(last, q) then [last.result] else [], k);
    }
  }

  lemma {:induction false} AppendKind(a: seq<SearchResult>, b: seq<SearchResult>, k: nat)
    requires AllOfRank(a, k) && AllOfRank(b, k)
    ensures AllOfRank(a + b, k)
    decreases |a|
  {
    if a != [] {
      AppendKind(a[1..], b, k);
      assert (a + b)[0] == a[0] && (a + b)[1..] == a[1..] + b;
    } else {
      assert a + b == b;
    }
  }

  /** The `k`-th group holds results of rank `k` only. */
  lemma GroupRank(k: nat, q: string, d: AppData)
    requires k < 8
    ensures AllOfRank(Group(k, q, d), k)
  {
    match k
    case 0 => PagesArePages(); MatchingKind(PAGES, q, PageCandidate, 0);
    case 1 => MatchingKind(d.bills, q, BillCandidate, 1);
    case 2 => MatchingKind(d.subscriptions, q, SubscriptionCandidate, 2);
    case 3 => MatchingKind(d.income, q, IncomeCandidate, 3);
    case 4 => MatchingKind(d.expenses, q, ExpenseCandidate, 4);
    case 5 => MatchingKind(d.savings, q, SavingsCandidate, 5);
    case 6 => MatchingKind(d.borrowed, q, BorrowedCandidate, 6);
    case 7 => MatchingKind(d.lent, q, LentCandidate, 7);
  }

  lemma PagesArePages()
    ensures forall p :: p in PAGES ==> p.kind == PageResult
  {
  }

  lemma {:induction false} RankOfMember(rs: seq<SearchResult>, k: nat, r: SearchResult)
    requires AllOfRank(rs, k)
    ensures r in rs ==> Rank(r.kind) == k
    decreases |rs|
  {
    if rs != [] {
      RankOfMember(rs[1..], k, r);
    }
  }

  /** Appending a group that ranks after everything so far keeps the list grouped. */
  lemma {:induction false} AppendGroup(rs: seq<SearchResult>, g: seq<SearchResult>, k: nat)
    requires GroupedByKind(rs) && RanksAtMost(rs, k)
    requires AllOfRank(g, k)
    ensures GroupedByKind(rs + g) && RanksAtMost(rs + g, k)
    decreases |rs|
  {
    if rs == [] {
      assert rs + g == g;
      GroupRanks(g, k);
    } else {
      AppendGroup(rs[1..], g, k);
      assert (rs + g)[1..] == rs[1..] + g;
      if |rs| == 1 && g != [] {
        assert (rs + g)[1] == g[0];
      }
    }
  }

  lemma {:induction false} GroupRanks(g: seq<SearchResult>, k: nat)
    requires AllOfRank(g, k)
    ensures GroupedByKind(g) && RanksAtMost(g, k)
    decreases |g|
  {
    if g != [] {
      GroupRanks(g[1..], k);
    }
  }

  lemma {:induction false} RanksRaise(rs: seq<SearchResult>, k: nat, k': nat)
    requires RanksAtMost(rs, k) && k <= k'
    ensures RanksAtMost(rs, k')
    decreases |rs|
  {
    if rs != [] {
      RanksRaise(rs[1..], k, k');
    }
  }

  /** The first `n` groups come group by group, none ranked `n` or later. */
  lemma {:induction false} MatchesUpToGrouped(n: nat, q: string, d: AppData)
    requires 0 < n <= 8
    ensures GroupedByKind(MatchesUpTo(n, q, d)) && RanksAtMost(MatchesUpTo(n, q, d), n - 1)
  {
    var prev, g := MatchesUpTo(n - 1, q, d), Group(n - 1, q, d);
    assert MatchesUpTo(n, q, d) == prev + g;
    GroupRank(n - 1, q, d);
    if n == 1 {
      assert prev + g == g;
      GroupRanks(g, 0);
    } else {
      MatchesUpToGrouped(n - 1, q, d);
      RanksRaise(prev, n - 2, n - 1);
      AppendGroup(prev, g, n - 1);
    }
  }

  /** All matches come group by group, pages first and money lent last. */
  lemma AllMatchesGrouped(q: string, d: AppData)
    ensures forall i, j :: 0 <= i < j < |AllMatches(q, d)| ==>
      Rank(AllMatches(q, d)[i].kind) <= Rank(AllMatches(q, d)[j].kind)
  {
    MatchesUpToGrouped(8, q, d);
    GroupedMeaning(AllMatches(q, d));
  }

  /** A blank query lists the twelve pages, in the order of the menu. */
  lemma BlankQueryListsPages(query: string, d: AppData)
    requires IsBlank(query)
    ensures SearchResults(query, d) == PAGES && |PAGES| == 12
    ensures forall r :: r in SearchResults(query, d) ==> r.kind == PageResult
  {
    PagesArePages();
  }

  /** Any other query lists at most ten results, all of them matches, in
      group order, and lists every match when there are no more than ten. */
  lemma SearchResultsMeaning(query: string, d: AppData, r: SearchResult)
    requires !IsBlank(query)
    ensures |SearchResults(query, d)| <= 10
    ensures r in SearchResults(query, d) ==> r in AllMatches(Lower(query), d)
    ensures |AllMatches(Lower(query), d)| <= 10 ==> SearchResults(query, d) == AllMatches(Lower(query), d)
    ensures forall i, j :: 0 <= i < j < |SearchResults(query, d)| ==>
      Rank(SearchResults(query, d)[i].kind) <= Rank(SearchResults(query, d)[j].kind)
  {
    var all := AllMatches(Lower(query), d);
    AllMatchesGrouped(Lower(query), d);
    if r in Take(all, 10) {
      var i :| 0 <= i < |Take(all, 10)| && Take(all, 10)[i] == r;
      assert all[i] == r;
    }
  }

  /** A result is among the first `n` groups' matches exactly when it is
      among those of its own group. */
  lemma {:induction false} InGroupUpTo(n: nat, q: string, d: AppData, r: SearchResult)
    requires n <= 8
    ensures r in MatchesUpTo(n, q, d) <==> Rank(r.kind) < n && r in Group(Rank(r.kind), q, d)
  {
    if n > 0 {
      InGroupUpTo(n - 1, q, d, r);
      GroupRank(n - 1, q, d);
      RankOfMember(Group(n - 1, q, d), n - 1, r);
    }
  }

  /** A result is among all matches exactly when it is among its own group's. */
  lemma InGroup(q: string, d: AppData, r: SearchResult)
    ensures Rank(r.kind) < 8
    ensures r in AllMatches(q, d) <==> r in Group(Rank(r.kind), q, d)
  {
    InGroupUpTo(8, q, d, r);
  }

  /** A bill is found exactly when the query occurs, ignoring case, in the
      name, the category or one of the tags of a bill it stands for. */
  lemma BillFound(q: string, d: AppData, b: Bill)
    ensures BillCandidate(b).result in AllMatches(q, d) <==>
      exists x :: x in d.bills && BillCandidate(x).result == BillCandidate(b).result &&
        (Hit(x.name, q) || Hit(x.category, q) || (x.tags.Some? && exists t :: t in x.tags.value && Hit(t, q)))
  {
    var r := BillCandidate(b).result;
    InGroup(q, d, r);
    MatchingMembership(d.bills, q, BillCandidate, r);
    forall x | x in d.bills
      ensures Matches(BillCandidate(x), q) <==>
        Hit(x.name, q) || Hit(x.category, q) || (x.tags.Some? && exists t :: t in x.tags.value && Hit(t, q))
    {
      assert BillCandidate(x).fields == [x.name, x.category];
    }
  }

  /** A savings goal is found by its name alone. */
  lemma SavingsFound(q: string, d: AppData, g: SavingsGoal)
    ensures SavingsCandidate(g).result in AllMatches(q, d) <==>
      exists x :: x in d.savings && SavingsCandidate(x).result == SavingsCandidate(g).result && Hit(x.name, q)
  {
    var r := SavingsCandidate(g).result;
    InGroup(q, d, r);
    MatchingMembership(d.savings, q, SavingsCandidate, r);
    forall x | x in d.savings
      ensures Matches(SavingsCandidate(x), q) <==> Hit(x.name, q)
    {
      assert SavingsCandidate(x).fields == [x.name];
    }
  }

  /** Searching ignores the case of the query. */
  lemma SearchIgnoresCase(query: string, d: AppData)
    ensures SearchResults(Lower(query), d) == SearchResults(query, d)
  {
    BlankIgnoresCase(query);
    LowerLaws(query);
  }

  /** `ArrowDown`: one further down, but never past the last result. */
  function StepDown(i: int, n: nat): int {
    if i + 1 < n - 1 then i + 1 else n - 1
  }

  /** `ArrowUp`: one further up, but never above the first result. */
  function StepUp(i: int): int {
    if i - 1 > 0 then i - 1 else 0
  }

  datatype Key = ArrowDown | ArrowUp | Enter | OtherKey

  /** The selection after a run of arrow keys over `n` results. */
  function AfterArrows(i: int, keys: seq<Key>, n: nat): int
    decreases |keys|
  {
    if keys == [] then i
    else AfterArrows(if keys[0] == ArrowDown then StepDown(i, n) else if keys[0] == ArrowUp then StepUp(i) else i,
      keys[1..], n)
  }

  /** Over a non-empty list the arrow keys keep the selection on a result;
      over an empty one `ArrowDown` leaves it at -1, where `Enter` does
      nothing, and `ArrowUp` brings it back to 0. */
  lemma {:induction false} ArrowsStayInRange(i: int, keys: seq<Key>, n: nat)
    requires n > 0 && 0 <= i < n
    ensures 0 <= AfterArrows(i, keys, n) < n
    decreases |keys|
  {
    if keys != [] {
      var next := if keys[0] == ArrowDown then StepDown(i, n) else if keys[0] == ArrowUp then StepUp(i) else i;
      ArrowsStayInRange(next, keys[1..], n);
    }
  }

  lemma EmptyListSelection(i: int)
    requires i >= -1
    ensures StepDown(i, 0) == -1 && StepUp(StepDown(i, 0)) == 0
  {
  }

  /** The dialog's state: whether it is open, the query typed, and the
      index of the highlighted result. */
  /** The highlight is kept only when the listed results are the very same:
      between two blank queries both list the pages. */
  lemma KeptHighlightSameResults(before: string, after: string, d: AppData)
    requires !SearchState.NewResults(before, after)
    ensures SearchResults(before, d) == SearchResults(after, d)
  {
    if before != after {
      BlankQueryListsPages(before, d);
      BlankQueryListsPages(after, d);
    }
  }

  class SearchState {
    var open: bool
    var query: string
    var selectedIndex: int

    constructor()
      ensures !open && query == "" && selectedIndex == 0
    {
      open := false;
      query := "";
      selectedIndex := 0;
    }

    method Open()
      modifies this`open
      ensures open
    {
      open := true;
    }

    /** Whether moving from one query to another hands the results effect a
        new array. A blank query yields the one shared page list, so only a
        change between two blank queries keeps the same array; an unchanged
        query recomputes nothing. */
    static predicate NewResults(before: string, after: string) {
      before != after && !(IsBlank(before) && IsBlank(after))
    }

    /** Typing a query: when the results are rebuilt, the first one is
        highlighted; otherwise the highlight stays where it was. */
    method SetQuery(text: string)
      modifies this`query, this`selectedIndex
      ensures query == text
      ensures selectedIndex == if NewResults(old(query), text) then 0 else old(selectedIndex)
    {
      if NewResults(query, text) {
        selectedIndex := 0;
      }
      query := text;
    }

    /** The store's records changed: a non-blank query rebuilds its results
        and highlights the first one; a blank query keeps the shared page
        list and the highlight. */
    method RecordsChanged()
      modifies this`selectedIndex
      ensures selectedIndex == if IsBlank(query) then old(selectedIndex) else 0
    {
      if !IsBlank(query) {
        selectedIndex := 0;
      }
    }

    /** Closing clears the query, which, when it was not blank, rebuilds the
        results and highlights the first one. */
    method Close()
      modifies this
      ensures !open && query == ""
      ensures selectedIndex == if IsBlank(old(query)) then old(selectedIndex) else 0
    {
      open := false;
      if !IsBlank(query) {
        selectedIndex := 0;
      }
      query := "";
    }

    /** A key pressed anywhere in the document: ignored while the dialog is
        closed; the arrows move the highlight; `Enter` on a highlighted
        result returns its path to navigate to and closes the dialog. */
    method KeyDown(key: Key, d: AppData) returns (navigateTo: Option<string>)
      modifies this
      ensures !old(open) ==> navigateTo.None? && open == old(open) && query == old(query) && selectedIndex == old(selectedIndex)
      ensures old(open) && key == ArrowDown ==>
        navigateTo.None? && open && query == old(query) && selectedIndex == StepDown(old(selectedIndex), |SearchResults(old(query), d)|)
      ensures old(open) && key == ArrowUp ==>
        navigateTo.None? && open && query == old(query) && selectedIndex == StepUp(old(selectedIndex))
      ensures navigateTo.Some? <==> old(open) && key == Enter && 0 <= old(selectedIndex) < |SearchResults(old(query), d)|
      ensures navigateTo.Some? ==>
        navigateTo.value == SearchResults(old(query), d)[old(selectedIndex)].path && !open && query == ""
      ensures navigateTo.None? && key != ArrowDown && key != ArrowUp ==>
        open == old(open) && query == old(query) && selectedIndex == old(selectedIndex)
    {
      navigateTo := None;
      if !open {
        return;
      }
      var results := Results(query, d);
      if key == ArrowDown {
        selectedIndex := StepDown(selectedIndex, |results|);
      } else if key == ArrowUp {
        selectedIndex := StepUp(selectedIndex);
      } else if key == Enter && 0 <= selectedIndex < |results| {
        navigateTo := Some(results[selectedIndex].path);
        Close();
      }
    }

    /** Clicking a listed result navigates to it and closes the dialog. */
    method Click(index: nat, d: AppData) returns (navigateTo: string)
      requires index < |SearchResults(query, d)|
      modifies this
      ensures navigateTo == SearchResults(old(query), d)[index].path
      ensures !open && query == ""
    {
      var results := Results(query, d);
      navigateTo := results[index].path;
      Close();
    }
  }
}
