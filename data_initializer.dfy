/** The start-up pass that fills in missing campaign totals from the
    completed donations. */
module DataInitializer {
  import opened Base
  import opened Entities
  import opened Repositories
  import CampaignService

  const Completed := "completed"

  /** The donations the start-up pass counts for campaign `k`. */
  predicate CompletedFor(d: Donation, k: int) {
    d.campaignId == Some(k) && d.status == Some(Completed)
  }

  /** The sum of the completed donations to campaign `k`, oldest first; `None`
      when one of them has no amount, since unboxing it throws. */
  function CompletedTotal(ds: seq<Donation>, k: int): (r: Option<real>)
    ensures r.None? <==> exists i :: 0 <= i < |ds| && CompletedFor(ds[i], k) && ds[i].amount.None?
  {
    if ds == [] then Some(0.0)
    else
      var init, d := ds[..|ds| - 1], ds[|ds| - 1];
      assert forall i :: 0 <= i < |init| ==> init[i] == ds[i];
      match CompletedTotal(init, k)
      case None => None
      case Some(t) =>
        if !CompletedFor(d, k) then Some(t)
        else if d.amount.None? then None
        else Some(t + d.amount.value)
  }

  /** A donation to another campaign, or with any status but "completed",
      leaves the total as it was. */
  lemma CompletedTotalSkips(ds: seq<Donation>, d: Donation, k: int)
    requires !CompletedFor(d, k)
    ensures CompletedTotal(ds + [d], k) == CompletedTotal(ds, k)
  {
    assert (ds + [d])[..|ds|] == ds;
  }

  /** When every donation to the campaign is completed and has an amount, the
      start-up total agrees with the one the campaign view recomputes. */
  lemma {:induction false} CompletedTotalAgrees(ds: seq<Donation>, k: int)
    requires forall i :: 0 <= i < |ds| && ds[i].campaignId == Some(k) ==> ds[i].status == Some(Completed) && ds[i].amount.Some?
    ensures CompletedTotal(ds, k) == Some(CampaignService.ActualTotalRaised(ds, k))
  {
    if ds == [] {
      CampaignService.ActualTotalRaisedEmpty(k);
    } else {
      var init, d := ds[..|ds| - 1], ds[|ds| - 1];
      forall i | 0 <= i < |init| && init[i].campaignId == Some(k)
        ensures init[i].status == Some(Completed) && init[i].amount.Some?
      {
        assert init[i] == ds[i];
      }
      CompletedTotalAgrees(init, k);
      CampaignService.ActualTotalRaisedAppend(init, d, k);
      assert init + [d] == ds;
    }
  }

  /** A worked case: a pending donation of 50 counts in the campaign view but
      not at start-up. */
  lemma PendingNotCounted(k: int)
    ensures var d := Donation(Some(50.0), 0, Some("pending"), None, None, None, Some(k));
      && CompletedTotal([d], k) == Some(0.0)
      && CampaignService.ActualTotalRaised([d], k) == 50.0
  {
    var d := Donation(Some(50.0), 0, Some("pending"), None, None, None, Some(k));
    CompletedTotalSkips([], d, k);
    CampaignService.ActualTotalRaisedAppend([], d, k);
    CampaignService.ActualTotalRaisedEmpty(k);
    assert [] + [d] == [d];
  }

  /** Only a campaign whose stored total is null or 0 is filled in. */
  predicate NeedsTotal(c: Campaign) {
    c.totalRaised.None? || c.totalRaised == Some(0.0)
  }

  /** The campaigns after the start-up pass visits `order` (the repository's
      listing). The pass stops at the first campaign whose total throws; the
      campaigns saved before that keep their new totals. */
  function Initialized(cs: map<int, Campaign>, order: seq<int>, ds: seq<Donation>): (r: map<int, Campaign>)
    ensures r.Keys == cs.Keys
    ensures forall k :: k in cs && !NeedsTotal(cs[k]) ==> r[k] == cs[k]
    ensures forall k :: k in cs && r[k] != cs[k] ==> CompletedTotal(ds, k).Some? && r[k] == cs[k].(totalRaised := CompletedTotal(ds, k))
    decreases |order|
  {
    if order == [] then cs
    else
      var k := order[0];
      if k !in cs then Initialized(cs, order[1..], ds)
      else match CompletedTotal(ds, k)
        case None => cs
        case Some(t) =>
          var cs' := if NeedsTotal(cs[k]) then cs[k := cs[k].(totalRaised := Some(t))] else cs;
          Initialized(cs', order[1..], ds)
  }

  /** No campaign visited before `i` hits a missing amount. */
  predicate RunsThrough(cs: map<int, Campaign>, order: seq<int>, ds: seq<Donation>) {
    forall i :: 0 <= i < |order| && order[i] in cs ==> CompletedTotal(ds, order[i]).Some?
  }

  /** When no total throws, every listed campaign that needed a total has
      exactly the sum of its completed donations. */
  lemma {:induction false} InitializedFillsIn(cs: map<int, Campaign>, order: seq<int>, ds: seq<Donation>, k: int)
    requires RunsThrough(cs, order, ds)
    requires k in cs && k in order && NeedsTotal(cs[k])
    ensures Initialized(cs, order, ds)[k].totalRaised == CompletedTotal(ds, k)
    ensures Initialized(cs, order, ds)[k] == cs[k].(totalRaised := CompletedTotal(ds, k))
    decreases |order|
  {
    var k0 := order[0];
    assert CompletedTotal(ds, k0).Some? || k0 !in cs;
    var cs' := if k0 in cs && NeedsTotal(cs[k0]) then cs[k0 := cs[k0].(totalRaised := CompletedTotal(ds, k0))] else cs;
    assert Initialized(cs, order, ds) == Initialized(cs', order[1..], ds);
    assert RunsThrough(cs', order[1..], ds) by {
      forall i | 0 <= i < |order[1..]| && order[1..][i] in cs' ensures CompletedTotal(ds, order[1..][i]).Some? {
        assert order[1..][i] == order[i + 1];
      }
    }
    if k == k0 {
      var c := cs'[k];
      assert c == cs[k].(totalRaised := CompletedTotal(ds, k));
    } else {
      assert k in order[1..];
      InitializedFillsIn(cs', order[1..], ds, k);
    }
  }

  /** Campaign `k` is settled for total `t`: visiting it again with the same
      donations changes nothing. */
  predicate Settled(c: Campaign, t: real) {
    !NeedsTotal(c) || c.totalRaised == Some(t)
  }

  lemma InitializedKeepsSettled(cs: map<int, Campaign>, order: seq<int>, ds: seq<Donation>, k: int, t: real)
    requires k in cs && CompletedTotal(ds, k) == Some(t) && Settled(cs[k], t)
    ensures Settled(Initialized(cs, order, ds)[k], t)
  {
    var r := Initialized(cs, order, ds);
    if r[k] != cs[k] {
      assert r[k] == cs[k].(totalRaised := Some(t));
    }
  }

  /** Running the start-up pass a second time changes nothing. */
  lemma {:induction false} InitializedIdempotent(cs: map<int, Campaign>, order: seq<int>, ds: seq<Donation>)
    ensures Initialized(Initialized(cs, order, ds), order, ds) == Initialized(cs, order, ds)
    decreases |order|
  {
    if order != [] {
      var k := order[0];
      var rest := order[1..];
      var r := Initialized(cs, order, ds);
      if k !in cs {
        InitializedIdempotent(cs, rest, ds);
      } else {
        match CompletedTotal(ds, k)
        case None =>
        case Some(t) =>
          var cs' := if NeedsTotal(cs[k]) then cs[k := cs[k].(totalRaised := Some(t))] else cs;
          assert r == Initialized(cs', rest, ds);
          assert Settled(cs'[k], t);
          InitializedKeepsSettled(cs', rest, ds, k, t);
          assert Settled(r[k], t);
          var r' := if NeedsTotal(r[k]) then r[k := r[k].(totalRaised := Some(t))] else r;
          assert r' == r;
          InitializedIdempotent(cs', rest, ds);
      }
    }
  }

  /** `initializeCampaignTotals`: visits the campaigns in repository order,
      computes each total before looking at the stored value, and saves the
      campaigns that need one. A missing amount ends the pass, and the
      exception is caught and logged; `completed` says whether the pass ran
      to the end. */
  method InitializeCampaignTotals(db: Db, order: seq<int>) returns (completed: bool)
    modifies db
    ensures db.campaigns == Initialized(old(db.campaigns), order, old(db.donations))
    ensures db.State() == old(db.State()).(campaigns := db.campaigns)
    ensures completed <==> RunsThrough(old(db.campaigns), order, old(db.donations))
  {
    ghost var start := db.campaigns;
    var i := 0;
    while i < |order|
      invariant 0 <= i <= |order|
      invariant db.State() == old(db.State()).(campaigns := db.campaigns)
      invariant db.campaigns.Keys == start.Keys
      invariant Initialized(db.campaigns, order[i..], db.donations) == Initialized(start, order, db.donations)
      invariant forall j :: 0 <= j < i && order[j] in start ==> CompletedTotal(db.donations, order[j]).Some?
    {
      var k := order[i];
      assert order[i..][1..] == order[i + 1..];
      if k in db.campaigns {
        var total := CompletedTotal(db.donations, k);
        if total.None? {
          return false;
        }
        var campaign := db.campaigns[k];
        if campaign.totalRaised.None? || campaign.totalRaised == Some(0.0) {
          campaign := campaign.(totalRaised := total);
          db.campaigns := db.campaigns[k := campaign];
        }
      }
      i := i + 1;
    }
    return true;
  }
}
