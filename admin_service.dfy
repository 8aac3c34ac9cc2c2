/** The admin dashboard's client-side computations: the "time ago" phrase,
    the headline statistics and the merged recent-activity feed. The fetched
    lists, the current time and the parsed dates are parameters; dates are
    milliseconds since the epoch. */
module AdminService {
  import opened Base
  import opened Text
  import opened Sorting
  import Dashboard

  // ---------------------------------------------------------------------
  // formatTimeAgo

  datatype Interval = Interval(unit: string, length: nat)

  /** The units tried, largest first, with their lengths in seconds. */
  const Intervals: seq<Interval> := [
    Interval("year", 31536000), Interval("month", 2592000), Interval("week", 604800),
    Interval("day", 86400), Interval("hour", 3600), Interval("minute", 60)]

  /** `Math.floor((now - date) / 1000)`. */
  function ElapsedSeconds(now: int, date: int): int {
    (now - date) / 1000
  }

  /** The first unit, from index `i` on, of which at least one whole unit
      has elapsed. */
  function FirstUnit(seconds: int, i: nat): Option<nat>
    requires i <= |Intervals|
    decreases |Intervals| - i
  {
    if i == |Intervals| then None
    else if seconds / Intervals[i].length >= 1 then Some(i)
    else FirstUnit(seconds, i + 1)
  }

  /** "<count> <unit>[s] ago". */
  function Phrase(count: nat, unit: string): string {
    NatToString(count) + " " + unit + (if count > 1 then "s" else "") + " ago"
  }

  /** What `formatTimeAgo` returns for a number of elapsed seconds. */
  function TimeAgo(seconds: int): (r: string)
    ensures seconds < 60 ==> r == "Just now"
    ensures seconds >= 60 ==> |r| >= 4 && r[|r| - 4..] == " ago"
  {
    FirstUnitIsLargest(seconds, 0);
    assert seconds < 60 ==> forall j :: 0 <= j < |Intervals| ==> seconds < Intervals[j].length;
    assert seconds >= 60 ==> seconds >= Intervals[5].length;
    match FirstUnit(seconds, 0)
    case None => "Just now"
    case Some(i) => Phrase(seconds / Intervals[i].length, Intervals[i].unit)
  }

  /** `formatTimeAgo`: the loop over the units with its early return. */
  method FormatTimeAgo(now: int, date: int) returns (r: string)
    ensures r == TimeAgo(ElapsedSeconds(now, date))
  {
    var seconds := (now - date) / 1000;
    for i := 0 to |Intervals|
      invariant FirstUnit(seconds, i) == FirstUnit(seconds, 0)
    {
      var interval := seconds / Intervals[i].length;
      if interval >= 1 {
        return Phrase(interval, Intervals[i].unit);
      }
    }
    return "Just now";
  }

  /** The unit found from `i` on is the first whose length has elapsed in
      full; none is found exactly when none of them has. */
  lemma {:induction false} FirstUnitIsLargest(seconds: int, i: nat)
    requires i <= |Intervals|
    ensures FirstUnit(seconds, i).Some? ==>
      var k := FirstUnit(seconds, i).value;
      && i <= k < |Intervals| && seconds >= Intervals[k].length
      && forall j :: i <= j < k ==> seconds < Intervals[j].length
    ensures FirstUnit(seconds, i).None? <==> forall j :: i <= j < |Intervals| ==> seconds < Intervals[j].length
    decreases |Intervals| - i
  {
    if i < |Intervals| {
      FirstUnitIsLargest(seconds, i + 1);
      WholeUnitElapsed(seconds, Intervals[i].length);
    }
  }

  /** At least one whole unit has elapsed exactly when the seconds reach
      the unit's length. */
  lemma WholeUnitElapsed(seconds: int, length: int)
    requires length > 0
    ensures seconds / length >= 1 <==> seconds >= length
    ensures seconds < length ==> seconds / length <= 0
  {
    var q := seconds / length;
    assert seconds == q * length + seconds % length;
    if q >= 1 {
      assert q * length >= length;
    } else {
      assert q * length <= 0;
    }
  }

  /** Fewer than 60 seconds, including a date in the future, reads "Just
      now"; anything longer names the largest unit that fits at least once,
      with its whole count. */
  lemma TimeAgoLargestUnit(seconds: int)
    ensures seconds < 60 ==> TimeAgo(seconds) == "Just now"
    ensures seconds >= 60 ==>
      var k := FirstUnit(seconds, 0).value;
      && FirstUnit(seconds, 0).Some?
      && TimeAgo(seconds) == Phrase(seconds / Intervals[k].length, Intervals[k].unit)
      && seconds / Intervals[k].length >= 1
      && forall j :: 0 <= j < k ==> seconds / Intervals[j].length == 0
  {
    FirstUnitIsLargest(seconds, 0);
    if seconds < 60 {
      assert forall j :: 0 <= j < |Intervals| ==> seconds < Intervals[j].length;
    } else {
      assert seconds >= Intervals[5].length;
      var k := FirstUnit(seconds, 0).value;
      assert seconds / Intervals[k].length >= 1;
    }
  }

  /** The unit is pluralised exactly when the count is above one. */
  lemma PluralIffMoreThanOne(count: nat, unit: string)
    requires unit != "" && unit[|unit| - 1] != 's'
    ensures var p := Phrase(count, unit);
      |p| >= 5 && (p[|p| - 5..] == "s ago" <==> count > 1)
  {
    var p := Phrase(count, unit);
    var head := NatToString(count) + " " + unit;
    if count > 1 {
      assert p == head + "s" + " ago";
      assert p[|p| - 5..] == "s ago";
    } else {
      assert p == head + " ago";
      assert p[|p| - 5] == unit[|unit| - 1];
    }
  }

  // ---------------------------------------------------------------------
  // getDashboardStats

  datatype UserRow = UserRow(userID: int, role: string)

  /** A donation with its parsed date (`None` for an invalid date). */
  datatype DonationRow = DonationRow(date: Option<int>)

  const DayMs := 24 * 60 * 60 * 1000
  const MaxRecentUsers := 5

  function ActiveUsers(users: seq<UserRow>): (n: nat)
    ensures n <= |users|
  {
    |Filter(users, (u: UserRow) => u.role != "ADMIN")|
  }

  /** `donationStats.totalAmount || 0`. */
  function TotalDonations(totalAmount: Option<real>): real {
    if totalAmount.Some? then totalAmount.value else 0.0
  }

  /** The donations dated within the last 24 hours; an invalid date never
      compares as recent. */
  function RecentDonations(donations: seq<DonationRow>, now: int): (r: seq<DonationRow>)
    ensures forall d :: d in r <==> d in donations && d.date.Some? && d.date.value >= now - DayMs
  {
    Filter(donations, (d: DonationRow) => d.date.Some? && d.date.value >= now - DayMs)
  }

  function ByNewestId(u: UserRow): real {
    -(u.userID as real)
  }

  /** `Math.min(5, Math.ceil(n / 10))`: a tenth of the users, rounded up,
      but no more than five. */
  function RecentUserCount(n: nat): nat {
    Min(MaxRecentUsers, (n + 9) / 10)
  }

  /** `recentUsers`: the users with the highest ids, at most five. */
  function RecentUsers(users: seq<UserRow>): (r: seq<UserRow>)
    ensures |r| == RecentUserCount(|users|) <= MaxRecentUsers
    ensures |r| <= |users|
  {
    Take(SortByKey(users, ByNewestId), RecentUserCount(|users|))
  }

  /** At most five recent users, all of them real users, highest id first,
      and at least one as soon as there is any user. */
  lemma RecentUsersShape(users: seq<UserRow>)
    ensures var r := RecentUsers(users);
      && |r| <= MaxRecentUsers && |r| <= |users|
      && (|users| > 0 ==> |r| >= 1)
      && (forall u :: u in r ==> u in users)
      && (forall i, j :: 0 <= i < j < |r| ==> r[i].userID >= r[j].userID)
  {
    var sorted := SortByKey(users, ByNewestId);
    SortOrdered(users, ByNewestId);
    var r := RecentUsers(users);
    PrefixOrdered(sorted, |r|, ByNewestId);
    forall u | u in r ensures u in users {
      assert u in multiset(sorted);
    }
    forall i, j | 0 <= i < j < |r| ensures r[i].userID >= r[j].userID {
      assert ByNewestId(r[i]) <= ByNewestId(r[j]);
    }
  }

  /** A growth figure: 0 when nothing is recent, otherwise the rounded
      percentage of recent items among all items. */
  function Growth(recent: nat, total: nat): (r: int)
    requires recent <= total
    ensures 0 <= r <= 100
    ensures recent == 0 ==> r == 0
  {
    if recent > 0 then Dashboard.RoundedPercentNearest(recent, total); Dashboard.RoundedPercent(recent, total) else 0
  }

  lemma GrowthBounds(recent: nat, total: nat)
    requires recent <= total
    ensures 0 <= Growth(recent, total) <= 100
    ensures recent == 0 ==> Growth(recent, total) == 0
    ensures 0 < recent == total ==> Growth(recent, total) == 100
  {
    if recent > 0 {
      Dashboard.RoundedPercentNearest(recent, total);
    }
  }

  datatype Performance = Performance(totalUsers: nat, activeUsers: nat, totalDonations: real,
                                     userGrowth: int, donationGrowth: int)

  /** The `performance` block of `getDashboardStats`. */
  function DashboardStats(users: seq<UserRow>, donations: seq<DonationRow>, totalAmount: Option<real>, now: int): (p: Performance)
    ensures p.totalUsers == |users| && p.activeUsers <= p.totalUsers
    ensures |users| == 0 ==> p.userGrowth == 0
    ensures |RecentDonations(donations, now)| == 0 ==> p.donationGrowth == 0
  {
    var recentUsers := RecentUsers(users);
    RecentUsersShape(users);
    var recent := RecentDonations(donations, now);
    Performance(|users|, ActiveUsers(users), TotalDonations(totalAmount),
                Growth(|recentUsers|, |users|), Growth(|recent|, |donations|))
  }

  /** Every figure stays in range: active users never exceed all users,
      both growth figures are percentages. */
  lemma DashboardStatsBounds(users: seq<UserRow>, donations: seq<DonationRow>, totalAmount: Option<real>, now: int)
    ensures var p := DashboardStats(users, donations, totalAmount, now);
      && p.activeUsers <= p.totalUsers == |users|
      && 0 <= p.userGrowth <= 100 && 0 <= p.donationGrowth <= 100
  {
    RecentUsersShape(users);
    GrowthBounds(|RecentUsers(users)|, |users|);
    GrowthBounds(|RecentDonations(donations, now)|, |donations|);
  }

  // ---------------------------------------------------------------------
  // getRecentActivity

  datatype ActivityKind = DonationActivity | UserActivity | CampaignActivity

  datatype Activity = Activity(kind: ActivityKind, timestamp: int)

  datatype DatedDonation = DatedDonation(date: int)

  /** A campaign with its start date (`None` when it has none). */
  datatype CampaignRow = CampaignRow(startDate: Option<int>)

  function Latest(a: Activity): real {
    -(a.timestamp as real)
  }

  function DonationLatest(d: DatedDonation): real {
    -(d.date as real)
  }

  function CampaignLatest(c: CampaignRow): real {
    if c.startDate.Some? then -(c.startDate.value as real) else 0.0
  }

  /** The three lists the feed draws from, each sorted newest first and cut
      to its share of `limit`. */
  function FeedDonations(donations: seq<DatedDonation>, limit: nat): seq<DatedDonation> {
    Take(SortByKey(donations, DonationLatest), limit / 2)
  }

  function FeedUsers(users: seq<UserRow>, limit: nat): seq<UserRow> {
    Take(SortByKey(users, ByNewestId), (limit + 2) / 3)
  }

  function FeedCampaigns(campaigns: seq<CampaignRow>, limit: nat): seq<CampaignRow> {
    Take(SortByKey(Filter(campaigns, (c: CampaignRow) => c.startDate.Some?), CampaignLatest), limit / 4)
  }

  /** A user's estimated registration time: one hour per id below the
      number of users. */
  function UserTimestamp(u: UserRow, userCount: nat, now: int): int {
    now - (userCount - u.userID) * 3600000
  }

  function DonationItem(d: DatedDonation): Activity {
    Activity(DonationActivity, d.date)
  }

  function UserItem(u: UserRow, userCount: nat, now: int): Activity {
    Activity(UserActivity, UserTimestamp(u, userCount, now))
  }

  function CampaignItem(c: CampaignRow): Activity {
    Activity(CampaignActivity, if c.startDate.Some? then c.startDate.value else 0)
  }

  function DonationItems(ds: seq<DatedDonation>): seq<Activity> {
    seq(|ds|, i requires 0 <= i < |ds| => DonationItem(ds[i]))
  }

  function UserItems(us: seq<UserRow>, userCount: nat, now: int): seq<Activity> {
    seq(|us|, i requires 0 <= i < |us| => UserItem(us[i], userCount, now))
  }

  function CampaignItems(cs: seq<CampaignRow>): seq<Activity> {
    seq(|cs|, i requires 0 <= i < |cs| => CampaignItem(cs[i]))
  }

  /** The activities pushed, in push order: donations, users, campaigns. */
  function Activities(ds: seq<DatedDonation>, us: seq<UserRow>, cs: seq<CampaignRow>, userCount: nat, now: int): seq<Activity> {
    DonationItems(ds) + UserItems(us, userCount, now) + CampaignItems(cs)
  }

  function RecentActivity(donations: seq<DatedDonation>, users: seq<UserRow>, campaigns: seq<CampaignRow>, limit: nat, now: int): (r: seq<Activity>)
    ensures |r| == Min(limit, |FeedDonations(donations, limit)| + |FeedUsers(users, limit)| + |FeedCampaigns(campaigns, limit)|)
  {
    var acts := Activities(FeedDonations(donations, limit), FeedUsers(users, limit), FeedCampaigns(campaigns, limit), |users|, now);
    Take(SortByKey(acts, Latest), limit)
  }

  /** `getRecentActivity`: the three pushing loops, then the sort and the
      cut. */
  method GetRecentActivity(donations: seq<DatedDonation>, users: seq<UserRow>, campaigns: seq<CampaignRow>, limit: nat, now: int)
    returns (r: seq<Activity>)
    ensures r == RecentActivity(donations, users, campaigns, limit, now)
  {
    var fromDonations := PushDonations(FeedDonations(donations, limit));
    var fromUsers := PushUsers(FeedUsers(users, limit), |users|, now);
    var fromCampaigns := PushCampaigns(FeedCampaigns(campaigns, limit));
    var activities := fromDonations + fromUsers + fromCampaigns;
    var sorted := SortByKey(activities, Latest);
    r := Take(sorted, limit);
  }

  /** The donation loop: one donation item per donation, in order. */
  method PushDonations(ds: seq<DatedDonation>) returns (items: seq<Activity>)
    ensures items == DonationItems(ds)
  {
    items := [];
    for i := 0 to |ds|
      invariant |items| == i
      invariant forall j :: 0 <= j < i ==> items[j] == DonationItem(ds[j])
    {
      items := items + [DonationItem(ds[i])];
    }
  }

  /** The user loop: one registration item per user, in order. */
  method PushUsers(us: seq<UserRow>, userCount: nat, now: int) returns (items: seq<Activity>)
    ensures items == UserItems(us, userCount, now)
  {
    items := [];
    for i := 0 to |us|
      invariant |items| == i
      invariant forall j :: 0 <= j < i ==> items[j] == UserItem(us[j], userCount, now)
    {
      items := items + [UserItem(us[i], userCount, now)];
    }
  }

  /** The campaign loop: one launch item per campaign, in order. */
  method PushCampaigns(cs: seq<CampaignRow>) returns (items: seq<Activity>)
    ensures items == CampaignItems(cs)
  {
    items := [];
    for i := 0 to |cs|
      invariant |items| == i
      invariant forall j :: 0 <= j < i ==> items[j] == CampaignItem(cs[j])
    {
      items := items + [CampaignItem(cs[i])];
    }
  }

  /** The feed holds at most `limit` items, newest first, each one of the
      activities built from the three lists. */
  lemma RecentActivityShape(donations: seq<DatedDonation>, users: seq<UserRow>, campaigns: seq<CampaignRow>, limit: nat, now: int)
    ensures var r := RecentActivity(donations, users, campaigns, limit, now);
      && |r| <= limit
      && (forall i, j :: 0 <= i < j < |r| ==> r[i].timestamp >= r[j].timestamp)
      && forall a :: a in r ==> a in Activities(FeedDonations(donations, limit), FeedUsers(users, limit), FeedCampaigns(campaigns, limit), |users|, now)
  {
    var acts := Activities(FeedDonations(donations, limit), FeedUsers(users, limit), FeedCampaigns(campaigns, limit), |users|, now);
    var sorted := SortByKey(acts, Latest);
    SortOrdered(acts, Latest);
    var r := RecentActivity(donations, users, campaigns, limit, now);
    PrefixOrdered(sorted, |r|, Latest);
    forall i, j | 0 <= i < j < |r| ensures r[i].timestamp >= r[j].timestamp {
      assert Latest(r[i]) <= Latest(r[j]);
    }
    forall a | a in r ensures a in acts {
      assert a in multiset(sorted);
    }
  }

  /** Each source contributes no more than its share: half the limit of
      donations, a third (rounded up) of users, a quarter of campaigns, and
      only campaigns that have a start date. */
  lemma FeedShares(donations: seq<DatedDonation>, users: seq<UserRow>, campaigns: seq<CampaignRow>, limit: nat)
    ensures |FeedDonations(donations, limit)| <= limit / 2
    ensures |FeedUsers(users, limit)| <= (limit + 2) / 3
    ensures |FeedCampaigns(campaigns, limit)| <= limit / 4
    ensures forall c :: c in FeedCampaigns(campaigns, limit) ==> c.startDate.Some? && c in campaigns
  {
    var kept := Filter(campaigns, (c: CampaignRow) => c.startDate.Some?);
    var sorted := SortByKey(kept, CampaignLatest);
    forall c | c in FeedCampaigns(campaigns, limit) ensures c.startDate.Some? && c in campaigns {
      assert c in multiset(sorted);
      assert c in kept;
    }
  }
}
