/** The donor's summary page: the total given, the number of distinct
    organizations helped, and the active campaigns supported, computed in
    the browser from the donor's fetched donations. Identifiers are numbers;
    a missing identifier and the number 0 are both falsy. */
module DonationSummary {
  import opened Base

  /** A campaign's nested `organization` object. */
  datatype NestedOrganization = NestedOrganization(organizationID: Option<int>)

  /** A donation's nested `campaign` object, with the three places an
      organization id may sit. */
  datatype CampaignInfo = CampaignInfo(campaignID: int, status: string,
                                       organization: Option<NestedOrganization>,
                                       organizationID: Option<int>, organization_id: Option<int>)

  datatype DonationInfo = DonationInfo(amount: Option<real>, campaign: Option<CampaignInfo>,
                                       organizationID: Option<int>, organization_id: Option<int>)

  /** What `getDonationsByUser` resolves to: an array, or an object whose
      `data` field may hold the array. */
  datatype Response = ArrayResponse(items: seq<DonationInfo>) | ObjectResponse(data: Option<seq<DonationInfo>>)

  /** The fetch either throws or yields a response. */
  datatype Fetched = FetchFailed | Fetched(response: Response)

  /** `Array.isArray(donations) ? donations : donations.data || []`. */
  function DonationList(response: Response): seq<DonationInfo> {
    match response
    case ArrayResponse(items) => items
    case ObjectResponse(data) => data.GetOr([])
  }

  /** A truthy id: present and not 0. */
  predicate Truthy(id: Option<int>) {
    id.Some? && id.value != 0
  }

  // ---------------------------------------------------------------------
  // totalDonations

  /** `donation.amount || 0`. */
  function Amount(d: DonationInfo): real {
    d.amount.GetOr(0.0)
  }

  function TotalAmount(list: seq<DonationInfo>): (r: real)
    ensures (forall d :: d in list ==> Amount(d) >= 0.0) ==> r >= 0.0
  {
    if forall d :: d in list ==> Amount(d) >= 0.0 then
      SumNonNegative(list, Amount);
      SumOf(list, Amount)
    else SumOf(list, Amount)
  }

  /** Donations without an amount add nothing: the total is the sum over
      those that carry one. */
  lemma {:induction false} MissingAmountsAddNothing(list: seq<DonationInfo>)
    ensures TotalAmount(Filter(list, (d: DonationInfo) => d.amount.Some?)) == TotalAmount(list)
  {
    if list != [] {
      var p := (d: DonationInfo) => d.amount.Some?;
      MissingAmountsAddNothing(list[1..]);
      var head := if p(list[0]) then [list[0]] else [];
      assert Filter(list, p) == head + Filter(list[1..], p);
      SumAppend(head, Filter(list[1..], p), Amount);
    }
  }

  // ---------------------------------------------------------------------
  // organizationsHelped

  /** The organization a donation counts towards: the nested organization's
      id, then the campaign's `organizationID`, then its `organization_id`,
      then the same two fields on the donation itself; the first truthy one
      wins. */
  function ResolveOrganization(d: DonationInfo): (r: Option<int>)
    ensures r.None? || Truthy(r)
    ensures r.Some? ==> r in Candidates(d)
  {
    var fromCampaign :=
      if d.campaign.None? then None
      else if d.campaign.value.organization.Some? && Truthy(d.campaign.value.organization.value.organizationID)
      then d.campaign.value.organization.value.organizationID
      else if Truthy(d.campaign.value.organizationID) then d.campaign.value.organizationID
      else if Truthy(d.campaign.value.organization_id) then d.campaign.value.organization_id
      else None;
    var withDonationId := if !Truthy(fromCampaign) && Truthy(d.organizationID) then d.organizationID else fromCampaign;
    if !Truthy(withDonationId) && Truthy(d.organization_id) then d.organization_id else withDonationId
  }

  /** The five places looked at, in the order they are tried. */
  function Candidates(d: DonationInfo): seq<Option<int>> {
    var nested := if d.campaign.Some? && d.campaign.value.organization.Some?
                  then d.campaign.value.organization.value.organizationID else None;
    var onCampaign := if d.campaign.Some? then d.campaign.value.organizationID else None;
    var onCampaignSnake := if d.campaign.Some? then d.campaign.value.organization_id else None;
    [nested, onCampaign, onCampaignSnake, d.organizationID, d.organization_id]
  }

  /** The resolved id is the first truthy candidate; there is none exactly
      when no candidate is truthy. */
  lemma ResolveIsFirstTruthyCandidate(d: DonationInfo)
    ensures var r := ResolveOrganization(d);
      && (r.None? <==> forall i :: 0 <= i < 5 ==> !Truthy(Candidates(d)[i]))
      && (r.Some? ==> exists i :: 0 <= i < 5 && Candidates(d)[i] == r && Truthy(r)
                                 && forall j :: 0 <= j < i ==> !Truthy(Candidates(d)[j]))
  {
    var c := Candidates(d);
    var r := ResolveOrganization(d);
    if Truthy(c[0]) {
      assert c[0] == r;
    } else if Truthy(c[1]) {
      assert c[1] == r;
    } else if Truthy(c[2]) {
      assert c[2] == r;
    } else if Truthy(c[3]) {
      assert c[3] == r;
    } else if Truthy(c[4]) {
      assert c[4] == r;
    }
  }

  /** The ids resolved from a prefix of the list, as the `Set` holds them
      after visiting that prefix. */
  function ResolvedIds(list: seq<DonationInfo>): set<int> {
    if list == [] then {}
    else
      var last := ResolveOrganization(list[|list| - 1]);
      ResolvedIds(list[..|list| - 1]) + (if last.Some? then {last.value} else {})
  }

  /** An id is counted exactly when some donation resolves to it; a donation
      that resolves to nothing adds nothing. */
  lemma {:induction false} ResolvedIdsMembers(list: seq<DonationInfo>, id: int)
    ensures id in ResolvedIds(list) <==> exists i :: 0 <= i < |list| && ResolveOrganization(list[i]) == Some(id)
  {
    if list != [] {
      var init := list[..|list| - 1];
      ResolvedIdsMembers(init, id);
      if id in ResolvedIds(init) {
        var i :| 0 <= i < |init| && ResolveOrganization(init[i]) == Some(id);
        assert list[i] == init[i];
      }
      if exists i :: 0 <= i < |list| && ResolveOrganization(list[i]) == Some(id) {
        var i :| 0 <= i < |list| && ResolveOrganization(list[i]) == Some(id);
        if i < |init| {
          assert init[i] == list[i];
        }
      }
    }
  }

  /** No more organizations than donations. */
  lemma {:induction false} ResolvedIdsBound(list: seq<DonationInfo>)
    ensures |ResolvedIds(list)| <= |list|
  {
    if list != [] {
      ResolvedIdsBound(list[..|list| - 1]);
      var last := ResolveOrganization(list[|list| - 1]);
      var prev := ResolvedIds(list[..|list| - 1]);
      if last.Some? {
        assert |prev + {last.value}| <= |prev| + 1;
      } else {
        assert prev + {} == prev;
      }
    }
  }

  /** The `forEach` that fills the `Set` of organization ids. */
  method UniqueOrganizations(list: seq<DonationInfo>) returns (ids: set<int>)
    ensures ids == ResolvedIds(list)
  {
    ids := {};
    for i := 0 to |list|
      invariant ids == ResolvedIds(list[..i])
    {
      assert list[..i + 1][..i] == list[..i];
      var orgId := ResolveOrganization(list[i]);
      if orgId.Some? {
        ids := ids + {orgId.value};
      }
    }
    assert list[..|list|] == list;
  }

  datatype Summary = Summary(totalDonations: real, organizationsHelped: nat, donationCount: nat,
                             donations: seq<DonationInfo>)

  const EmptySummary := Summary(0.0, 0, 0, [])

  /** `getUserDonationSummary`. */
  method UserDonationSummary(fetched: Fetched) returns (s: Summary)
    ensures fetched.FetchFailed? ==> s == EmptySummary
    ensures fetched.Fetched? ==>
      var list := DonationList(fetched.response);
      && s.totalDonations == TotalAmount(list)
      && s.organizationsHelped == |ResolvedIds(list)|
      && s.donationCount == |list| && s.donations == list
  {
    if fetched.FetchFailed? {
      return EmptySummary;
    }
    var list := DonationList(fetched.response);
    var total := TotalAmount(list);
    var unique := UniqueOrganizations(list);
    s := Summary(total, |unique|, |list|, list);
  }

  /** A summary never claims more organizations helped than donations made,
      and with no negative amounts its total is never negative. */
  lemma SummaryBounds(list: seq<DonationInfo>)
    ensures |ResolvedIds(list)| <= |list|
    ensures (forall d :: d in list ==> Amount(d) >= 0.0) ==> TotalAmount(list) >= 0.0
  {
    ResolvedIdsBound(list);
    if forall d :: d in list ==> Amount(d) >= 0.0 {
      SumNonNegative(list, Amount);
    }
  }

  // ---------------------------------------------------------------------
  // getUserActiveCampaigns

  predicate IsActive(d: DonationInfo) {
    d.campaign.Some? && d.campaign.value.status == "ACTIVE"
  }

  /** The `Map` keyed by campaign id after visiting `list`: its keys in
      insertion order, and the value last set under each. */
  function ActiveKeys(list: seq<DonationInfo>): (keys: seq<int>)
    ensures forall i, j :: 0 <= i < j < |keys| ==> keys[i] != keys[j]
    ensures forall id :: id in keys <==> exists k :: 0 <= k < |list| && IsActive(list[k]) && list[k].campaign.value.campaignID == id
  {
    if list == [] then []
    else
      var init := list[..|list| - 1];
      var d := list[|list| - 1];
      var prev := ActiveKeys(init);
      assert forall k :: 0 <= k < |init| ==> init[k] == list[k];
      if IsActive(d) && d.campaign.value.campaignID !in prev then prev + [d.campaign.value.campaignID] else prev
  }

  /** The campaign of the last active donation to campaign `id`, if any:
      the version a later `set` under that key leaves in place. */
  function LastVersion(list: seq<DonationInfo>, id: int): (r: Option<CampaignInfo>)
    ensures r.Some? ==> r.value.campaignID == id
    ensures r.Some? ==>
      exists k :: 0 <= k < |list| && IsActive(list[k]) && list[k].campaign.value == r.value
        && (forall l :: k < l < |list| ==> !(IsActive(list[l]) && list[l].campaign.value.campaignID == id))
    ensures r.None? ==> forall k :: 0 <= k < |list| ==> !(IsActive(list[k]) && list[k].campaign.value.campaignID == id)
  {
    if list == [] then None
    else
      var init, d := list[..|list| - 1], list[|list| - 1];
      assert forall k :: 0 <= k < |init| ==> init[k] == list[k];
      if IsActive(d) && d.campaign.value.campaignID == id then Some(d.campaign.value)
      else LastVersion(init, id)
  }

  function ActiveById(list: seq<DonationInfo>): (m: map<int, CampaignInfo>)
    ensures forall id :: id in m ==> m[id].campaignID == id && m[id].status == "ACTIVE"
    ensures forall id :: id in m <==> id in ActiveKeys(list)
    ensures forall id :: id in m ==> LastVersion(list, id) == Some(m[id])
  {
    if list == [] then map[]
    else
      var d := list[|list| - 1];
      var prev := ActiveById(list[..|list| - 1]);
      if IsActive(d) then prev[d.campaign.value.campaignID := d.campaign.value] else prev
  }

  /** `Array.from(activeCampaigns.values())`. */
  function ActiveCampaigns(list: seq<DonationInfo>): (r: seq<CampaignInfo>)
    ensures |r| == |ActiveKeys(list)|
    ensures forall i :: 0 <= i < |r| ==> LastVersion(list, ActiveKeys(list)[i]) == Some(r[i])
  {
    var keys := ActiveKeys(list);
    var m := ActiveById(list);
    seq(|keys|, i requires 0 <= i < |keys| => m[keys[i]])
  }

  /** The `forEach` that fills the `Map`, then its values in insertion
      order. */
  method UserActiveCampaignsFrom(list: seq<DonationInfo>) returns (r: seq<CampaignInfo>)
    ensures r == ActiveCampaigns(list)
  {
    var keys: seq<int> := [];
    var byId: map<int, CampaignInfo> := map[];
    for i := 0 to |list|
      invariant keys == ActiveKeys(list[..i]) && byId == ActiveById(list[..i])
    {
      assert list[..i + 1][..i] == list[..i];
      var d := list[i];
      if d.campaign.Some? && d.campaign.value.status == "ACTIVE" {
        if d.campaign.value.campaignID !in byId {
          keys := keys + [d.campaign.value.campaignID];
        }
        byId := byId[d.campaign.value.campaignID := d.campaign.value];
      }
    }
    assert list[..|list|] == list;
    r := seq(|keys|, i requires 0 <= i < |keys| => byId[keys[i]]);
  }

  /** `getUserActiveCampaigns`: the empty list when the fetch fails. */
  method UserActiveCampaigns(fetched: Fetched) returns (r: seq<CampaignInfo>)
    ensures fetched.FetchFailed? ==> r == []
    ensures fetched.Fetched? ==> r == ActiveCampaigns(DonationList(fetched.response))
  {
    if fetched.FetchFailed? {
      return [];
    }
    r := UserActiveCampaignsFrom(DonationList(fetched.response));
  }

  /** Every campaign listed is active, no campaign id is listed twice, and
      every active campaign the donor gave to is listed, as the last version
      of it seen. */
  lemma ActiveCampaignsUnique(list: seq<DonationInfo>)
    ensures var r := ActiveCampaigns(list);
      && (forall i :: 0 <= i < |r| ==> r[i].status == "ACTIVE")
      && (forall i, j :: 0 <= i < j < |r| ==> r[i].campaignID != r[j].campaignID)
      && (forall k :: 0 <= k < |list| && IsActive(list[k]) ==>
            exists i :: 0 <= i < |r| && r[i].campaignID == list[k].campaign.value.campaignID)
      && (forall i :: 0 <= i < |r| ==> LastVersion(list, r[i].campaignID) == Some(r[i]))
  {
    var keys := ActiveKeys(list);
    var r := ActiveCampaigns(list);
    assert forall i :: 0 <= i < |r| ==> r[i].campaignID == keys[i];
    forall k | 0 <= k < |list| && IsActive(list[k])
      ensures exists i :: 0 <= i < |r| && r[i].campaignID == list[k].campaign.value.campaignID
    {
      var id := list[k].campaign.value.campaignID;
      assert id in keys;
      var i :| 0 <= i < |keys| && keys[i] == id;
      assert r[i].campaignID == id;
    }
  }
}
