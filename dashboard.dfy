/** The organization dashboard's five headline figures, computed from the
    organization's campaigns and its stored total. */
module Dashboard {
  import opened Base

  datatype Campaign = Campaign(status: string, raised: real)

  /** The number of campaigns whose status is exactly `status`. */
  function CountStatus(campaigns: seq<Campaign>, status: string): (n: nat)
    ensures n <= |campaigns|
  {
    |Filter(campaigns, (c: Campaign) => c.status == status)|
  }

  function ActiveCampaigns(campaigns: seq<Campaign>): (n: nat)
    ensures n <= |campaigns|
  {
    CountStatus(campaigns, "Active")
  }

  function CompletedCampaigns(campaigns: seq<Campaign>): nat {
    CountStatus(campaigns, "Completed")
  }

  /** A campaign is counted under at most one status, so the two counts
      together never exceed the number of campaigns. */
  lemma {:induction false} CountsDisjoint(campaigns: seq<Campaign>, s: string, t: string)
    requires s != t
    ensures CountStatus(campaigns, s) + CountStatus(campaigns, t) <= |campaigns|
  {
    if campaigns != [] {
      CountsDisjoint(campaigns[1..], s, t);
      assert campaigns == [campaigns[0]] + campaigns[1..];
      var p := (c: Campaign) => c.status == s;
      var q := (c: Campaign) => c.status == t;
      assert Filter(campaigns, p) == (if p(campaigns[0]) then [campaigns[0]] else []) + Filter(campaigns[1..], p);
      assert Filter(campaigns, q) == (if q(campaigns[0]) then [campaigns[0]] else []) + Filter(campaigns[1..], q);
    }
  }

  lemma ActiveAndCompletedBounded(campaigns: seq<Campaign>)
    ensures ActiveCampaigns(campaigns) + CompletedCampaigns(campaigns) <= |campaigns|
  {
    CountsDisjoint(campaigns, "Active", "Completed");
  }

  /** `Math.floor(raised / 100)`. */
  function DonorEstimate(c: Campaign): int {
    (c.raised / 100.0).Floor
  }

  /** `totalDonors`: one donor estimated per full 100 raised, per campaign. */
  function TotalDonors(campaigns: seq<Campaign>): (r: int)
    ensures (forall c :: c in campaigns ==> c.raised < 100.0) ==> r <= 0
  {
    if campaigns == [] then 0 else DonorEstimate(campaigns[0]) + TotalDonors(campaigns[1..])
  }

  /** With nothing negative raised, the estimate is never negative and never
      claims more than one donor per 100 raised overall. */
  lemma {:induction false} TotalDonorsBounds(campaigns: seq<Campaign>)
    requires forall c :: c in campaigns ==> c.raised >= 0.0
    ensures 0 <= TotalDonors(campaigns)
    ensures (TotalDonors(campaigns) as real) * 100.0 <= SumOf(campaigns, (c: Campaign) => c.raised)
  {
    if campaigns != [] {
      TotalDonorsBounds(campaigns[1..]);
      var c := campaigns[0];
      assert (DonorEstimate(c) as real) <= c.raised / 100.0;
      assert DonorEstimate(c) >= 0;
    }
  }

  /** `avgDonation`: the stored total spread over the estimated donors, or
      the whole total when the estimate is below one donor (the divisor is
      never less than 1). */
  function AvgDonation(totalRaised: real, totalDonors: int): (r: real)
    ensures totalDonors >= 1 ==> r * (totalDonors as real) == totalRaised
    ensures totalDonors < 1 ==> r == totalRaised
  {
    totalRaised / (Max(totalDonors, 1) as real)
  }

  /** `Math.round(100 * completed / total)` for `0 <= completed <= total`,
      `total > 0`: the nearest whole percentage, halves rounded up. */
  function RoundedPercent(completed: nat, total: nat): (r: int)
    requires 0 < total && completed <= total
    ensures 2 * (r * total) <= 200 * completed + total < 2 * (r * total) + 2 * total
  {
    (200 * completed + total) / (2 * total)
  }

  /** `successRate`. */
  function SuccessRate(campaigns: seq<Campaign>): (r: int)
    ensures |campaigns| == 0 ==> r == 0
  {
    if |campaigns| > 0 then RoundedPercent(CompletedCampaigns(campaigns), |campaigns|) else 0
  }

  lemma MulMonotone(a: int, b: int, t: int)
    ensures t >= 0 && a <= b ==> a * t <= b * t
  {
    if t >= 0 && a <= b {
      assert b * t - a * t == (b - a) * t;
    }
  }

  /** The rounded percentage is less than half a point below, and at most
      half a point above, the exact one; so it lies in [0, 100], and it is 0
      or 100 when none or all completed. */
  lemma RoundedPercentNearest(completed: nat, total: nat)
    requires 0 < total && completed <= total
    ensures var r := RoundedPercent(completed, total);
      && -(total as int) < 2 * (r * total - 100 * completed) <= total
      && 0 <= r <= 100
      && (completed == 0 ==> r == 0) && (completed == total ==> r == 100)
  {
    var r := RoundedPercent(completed, total);
    var n := 200 * completed + total;
    var d := 2 * total;
    assert d * r <= n < d * r + d;
    assert 2 * (r * total - 100 * completed) == d * r - n + total;
    MulMonotone(r + 1, 0, d);
    MulMonotone(101, r, d);
    MulMonotone(r + 1, 100, d);
    MulMonotone(1, r, d);
  }

  lemma SuccessRateBounds(campaigns: seq<Campaign>)
    ensures 0 <= SuccessRate(campaigns) <= 100
    ensures |campaigns| > 0 && CompletedCampaigns(campaigns) == |campaigns| ==> SuccessRate(campaigns) == 100
  {
    if |campaigns| > 0 {
      RoundedPercentNearest(CompletedCampaigns(campaigns), |campaigns|);
    }
  }
}
