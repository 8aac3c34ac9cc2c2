/** The organization's campaign list: text truncation, status colours, the
    search/status filter followed by the chosen sort, and the days-left
    counter. Dates are milliseconds since the epoch, parsed by the browser. */
module Campaigns {
  import opened Base
  import opened Text
  import opened Sorting

  /** A campaign as the list receives it. `progress` is `raised / goal` as the
      browser computes it. */
  datatype Card = Card(id: int, title: string, description: string, status: string,
                       goal: real, raised: real, progress: real, posted: int)

  const Ellipsis := '…'

  /** `truncateText(text, maxLength)`; `None` stands for `null` or
      `undefined`. */
  function TruncateText(text: Option<string>, maxLength: nat): (r: string)
    ensures text.None? || text == Some("") ==> r == ""
    ensures text.Some? && |text.value| <= maxLength ==> r == text.value
    ensures |r| <= maxLength + 1
  {
    if text.None? || text.value == "" then ""
    else if |text.value| <= maxLength then text.value
    else Trim(text.value[..maxLength]) + [Ellipsis]
  }

  /** The text a truncation keeps, without its ellipsis. */
  function Kept(r: string): string {
    if r == [] then [] else r[..|r| - 1]
  }

  /** A truncated text is a run of the original's first `maxLength`
      characters followed by the ellipsis; so a non-empty text never
      truncates to nothing. */
  lemma TruncatedIsPrefixRun(text: string, maxLength: nat)
    requires |text| > maxLength
    ensures TruncateText(Some(text), maxLength) != ""
    ensures TruncateText(Some(text), maxLength)[|TruncateText(Some(text), maxLength)| - 1] == Ellipsis
    ensures exists a :: OccursAt(text, Kept(TruncateText(Some(text), maxLength)), a) && a + |Kept(TruncateText(Some(text), maxLength))| <= maxLength
  {
    var p := text[..maxLength];
    var t := Trim(p);
    var r := TruncateText(Some(text), maxLength);
    assert r == t + [Ellipsis];
    assert Kept(r) == t;
    var a := |p| - |TrimStart(p)|;
    TrimIsRun(p);
    RunOfPrefix(text, maxLength, t, a);
  }

  /** Trimming keeps a contiguous run of the text, starting after the
      leading blanks. */
  lemma TrimIsRun(p: string)
    ensures OccursAt(p, Trim(p), |p| - |TrimStart(p)|)
  {
    var s := TrimStart(p);
    var t := TrimEnd(s);
    var b := |p| - |s|;
    TrimStartDropsBlanks(p);
    TrimEndDropsBlanks(s);
    assert s == p[b..];
    assert t == s[..|t|];
    assert p[b..][..|t|] == p[b..b + |t|];
    assert Trim(p) == t;
  }

  /** A run of a prefix is a run of the whole text, ending inside the prefix. */
  lemma RunOfPrefix(text: string, n: nat, t: string, a: int)
    requires n <= |text| && OccursAt(text[..n], t, a)
    ensures OccursAt(text, t, a) && a + |t| <= n
  {
    assert text[..n][a..a + |t|] == text[a..a + |t|];
  }

  const ActiveColor := "bg-[#a50805]"
  const CompletedColor := "bg-[#4caf50]"
  const PausedColor := "bg-[#ff9800]"
  const DefaultColor := "bg-[#b6b1b2]"

  /** `getStatusColor`: a fixed class for the three known statuses, the grey
      default for anything else (case matters). */
  function StatusColor(status: string): (r: string)
    ensures r in {ActiveColor, CompletedColor, PausedColor, DefaultColor}
    ensures r == ActiveColor <==> status == "Active"
    ensures r == CompletedColor <==> status == "Completed"
    ensures r == PausedColor <==> status == "Paused"
    ensures r == DefaultColor <==> status !in {"Active", "Completed", "Paused"}
  {
    match status
    case "Active" => ActiveColor
    case "Completed" => CompletedColor
    case "Paused" => PausedColor
    case _ => DefaultColor
  }

  /** The search and status conditions of the filter. */
  predicate Matches(c: Card, searchTerm: string, statusFilter: string) {
    && (Contains(Lower(c.title), Lower(searchTerm)) || Contains(Lower(c.description), Lower(searchTerm)))
    && (statusFilter == "All" || c.status == statusFilter)
  }

  /** The `sortBy` values the comparator recognises. */
  datatype SortBy = Newest | Oldest | GoalHigh | GoalLow | ProgressHigh | ProgressLow | Unrecognised

  function ParseSortBy(sortBy: string): SortBy {
    match sortBy
    case "newest" => Newest
    case "oldest" => Oldest
    case "goal-high" => GoalHigh
    case "goal-low" => GoalLow
    case "progress-high" => ProgressHigh
    case "progress-low" => ProgressLow
    case _ => Unrecognised
  }

  /** The key a recognised order sorts on, smallest first; `None` where the
      comparator answers 0. */
  function SortKey(order: SortBy): Option<Card -> real> {
    match order
    case Newest => Some((c: Card) => -(c.posted as real))
    case Oldest => Some((c: Card) => c.posted as real)
    case GoalHigh => Some((c: Card) => -c.goal)
    case GoalLow => Some((c: Card) => c.goal)
    case ProgressHigh => Some((c: Card) => -c.progress)
    case ProgressLow => Some((c: Card) => c.progress)
    case Unrecognised => None
  }

  /** `filteredCampaigns`. */
  function FilteredCampaigns(campaigns: seq<Card>, searchTerm: string, statusFilter: string, sortBy: string): (r: seq<Card>)
    ensures multiset(r) == multiset(Filter(campaigns, c => Matches(c, searchTerm, statusFilter)))
  {
    var kept := Filter(campaigns, c => Matches(c, searchTerm, statusFilter));
    match SortKey(ParseSortBy(sortBy))
    case Some(key) => SortByKey(kept, key)
    case None => kept
  }

  /** Every campaign shown is one of the input campaigns that matches the
      search and the status filter, and every matching campaign is shown. */
  lemma FilteredExactlyMatching(campaigns: seq<Card>, searchTerm: string, statusFilter: string, sortBy: string)
    ensures forall c :: c in FilteredCampaigns(campaigns, searchTerm, statusFilter, sortBy) <==>
      c in campaigns && Matches(c, searchTerm, statusFilter)
    ensures |FilteredCampaigns(campaigns, searchTerm, statusFilter, sortBy)| <= |campaigns|
  {
    var kept := Filter(campaigns, c => Matches(c, searchTerm, statusFilter));
    var r := FilteredCampaigns(campaigns, searchTerm, statusFilter, sortBy);
    assert forall c :: c in r <==> c in multiset(r);
    assert forall c :: c in kept <==> c in multiset(kept);
    assert |r| == |multiset(r)| == |multiset(kept)| == |kept|;
  }

  /** The list a recognised order produces is ordered by its key. */
  lemma SortedByKey(campaigns: seq<Card>, searchTerm: string, statusFilter: string, sortBy: string)
    requires SortKey(ParseSortBy(sortBy)).Some?
    ensures var r := FilteredCampaigns(campaigns, searchTerm, statusFilter, sortBy);
      var key := SortKey(ParseSortBy(sortBy)).value;
      forall i, j :: 0 <= i < j < |r| ==> key(r[i]) <= key(r[j])
  {
    var key := SortKey(ParseSortBy(sortBy)).value;
    SortOrdered(Filter(campaigns, c => Matches(c, searchTerm, statusFilter)), key);
  }

  /** "goal-high" shows goals non-increasing, "goal-low" non-decreasing. */
  lemma GoalOrder(campaigns: seq<Card>, searchTerm: string, statusFilter: string, sortBy: string)
    requires sortBy == "goal-high" || sortBy == "goal-low"
    ensures var r := FilteredCampaigns(campaigns, searchTerm, statusFilter, sortBy);
      && (sortBy == "goal-high" ==> forall i, j :: 0 <= i < j < |r| ==> r[i].goal >= r[j].goal)
      && (sortBy == "goal-low" ==> forall i, j :: 0 <= i < j < |r| ==> r[i].goal <= r[j].goal)
  {
    SortedByKey(campaigns, searchTerm, statusFilter, sortBy);
  }

  /** "newest" shows the latest posting first, "oldest" the earliest. */
  lemma DateOrder(campaigns: seq<Card>, searchTerm: string, statusFilter: string, sortBy: string)
    requires sortBy == "newest" || sortBy == "oldest"
    ensures var r := FilteredCampaigns(campaigns, searchTerm, statusFilter, sortBy);
      && (sortBy == "newest" ==> forall i, j :: 0 <= i < j < |r| ==> r[i].posted >= r[j].posted)
      && (sortBy == "oldest" ==> forall i, j :: 0 <= i < j < |r| ==> r[i].posted <= r[j].posted)
  {
    SortedByKey(campaigns, searchTerm, statusFilter, sortBy);
  }

  /** An unrecognised `sortBy` keeps the filtered list in input order. */
  lemma UnknownSortKeepsOrder(campaigns: seq<Card>, searchTerm: string, statusFilter: string, sortBy: string)
    requires sortBy !in {"newest", "oldest", "goal-high", "goal-low", "progress-high", "progress-low"}
    ensures FilteredCampaigns(campaigns, searchTerm, statusFilter, sortBy) == Filter(campaigns, c => Matches(c, searchTerm, statusFilter))
  {
    assert ParseSortBy(sortBy) == Unrecognised;
  }

  lemma {:induction false} FilterKeepsAll<T(!new)>(s: seq<T>, p: T -> bool)
    requires forall x :: x in s ==> p(x)
    ensures Filter(s, p) == s
  {
    if s != [] {
      FilterKeepsAll(s[1..], p);
      assert s == [s[0]] + s[1..];
    }
  }

  /** With an empty search and the "All" filter every campaign is shown, in
      input order when the sort is not recognised. */
  lemma EmptySearchKeepsAll(campaigns: seq<Card>, sortBy: string)
    ensures multiset(FilteredCampaigns(campaigns, "", "All", sortBy)) == multiset(campaigns)
    ensures SortKey(ParseSortBy(sortBy)).None? ==> FilteredCampaigns(campaigns, "", "All", sortBy) == campaigns
  {
    forall c | c in campaigns ensures Matches(c, "", "All") {
      assert OccursAt(Lower(c.title), Lower(""), 0);
    }
    FilterKeepsAll(campaigns, c => Matches(c, "", "All"));
  }

  const MsPerDay := 1000 * 60 * 60 * 24

  /** `daysLeft`: whole days until the end date, rounded up, never below 0;
      0 when the campaign has no end date. */
  function DaysLeft(endDate: Option<int>, today: int): (r: int)
    ensures r >= 0
    ensures endDate.None? ==> r == 0
    ensures endDate.Some? ==> r * MsPerDay >= endDate.value - today
    ensures endDate.Some? && r > 0 ==> (r - 1) * MsPerDay < endDate.value - today
  {
    match endDate
    case None => 0
    case Some(end) => Max(0, -((today - end) / MsPerDay))
  }
}
