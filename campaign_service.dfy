/** Campaign views: the total raised recomputed from donations, the DTO, saving
    with an organization reference, and the per-organization listing. */
module CampaignService {
  import opened Base
  import opened Entities
  import opened Repositories
  import DonationService

  /** A donation's amount as the recomputation reads it: a null amount counts as 0. */
  function AmountOrZero(d: Donation): real {
    d.amount.GetOr(0.0)
  }

  /** `calculateActualTotalRaised`: every donation linked to the campaign,
      whatever its status, summed with null amounts read as 0. */
  function ActualTotalRaised(ds: seq<Donation>, campaignId: int): (r: real)
    ensures (forall d :: d in ds ==> d.campaignId != Some(campaignId)) ==> r == 0.0
  {
    SumOf(DonationService.GetDonationsByCampaignId(ds, campaignId), AmountOrZero)
  }

  lemma ActualTotalRaisedEmpty(campaignId: int)
    ensures ActualTotalRaised([], campaignId) == 0.0
  {
    assert DonationService.GetDonationsByCampaignId([], campaignId) == [];
  }

  /** One more donation changes the total of its own campaign by its amount and
      no other campaign's total. */
  lemma ActualTotalRaisedAppend(ds: seq<Donation>, d: Donation, campaignId: int)
    ensures ActualTotalRaised(ds + [d], campaignId)
            == ActualTotalRaised(ds, campaignId) + (if d.campaignId == Some(campaignId) then AmountOrZero(d) else 0.0)
  {
    DonationService.CampaignQueryAppend(ds, d, campaignId);
    var tail := if DonationService.ByCampaign(d, campaignId) then [d] else [];
    SumAppend(DonationService.GetDonationsByCampaignId(ds, campaignId), tail, AmountOrZero);
    assert SumOf(tail, AmountOrZero) == if tail == [] then 0.0 else AmountOrZero(d) + SumOf([], AmountOrZero);
  }

  /** With no negative amounts the recomputed total is never negative. */
  lemma ActualTotalRaisedNonNegative(ds: seq<Donation>, campaignId: int)
    requires forall i :: 0 <= i < |ds| ==> AmountOrZero(ds[i]) >= 0.0
    ensures ActualTotalRaised(ds, campaignId) >= 0.0
  {
    var r := DonationService.GetDonationsByCampaignId(ds, campaignId);
    forall x | x in r ensures AmountOrZero(x) >= 0.0 {
      var i :| 0 <= i < |ds| && ds[i] == x;
    }
    SumNonNegative(r, AmountOrZero);
  }

  /** The status of a donation plays no part: marking donations as pending or
      completed leaves the recomputed total as it was. */
  lemma {:induction false} ActualTotalRaisedIgnoresStatus(ds: seq<Donation>, ds': seq<Donation>, campaignId: int)
    requires StatusesOnlyDiffer(ds, ds')
    ensures ActualTotalRaised(ds', campaignId) == ActualTotalRaised(ds, campaignId)
    decreases |ds|
  {
    if ds != [] {
      var n := |ds| - 1;
      var init, init' := ds[..n], ds'[..n];
      assert StatusesOnlyDiffer(init, init') by {
        forall i | 0 <= i < n ensures init'[i] == init[i].(status := init'[i].status) {
          assert init'[i] == ds'[i] && init[i] == ds[i];
        }
      }
      ActualTotalRaisedIgnoresStatus(init, init', campaignId);
      var d, d' := ds[n], ds'[n];
      assert d' == d.(status := d'.status);
      SplitLast(ds);
      SplitLast(ds');
      ActualTotalRaisedAppend(init, d, campaignId);
      ActualTotalRaisedAppend(init', d', campaignId);
    }
  }

  /** The two lists hold the same donations, position by position, except
      perhaps for their statuses. */
  predicate StatusesOnlyDiffer(ds: seq<Donation>, ds': seq<Donation>) {
    |ds| == |ds'| && forall i :: 0 <= i < |ds| ==> ds'[i] == ds[i].(status := ds'[i].status)
  }

  /** The campaign view the controllers return. */
  datatype CampaignDTO = CampaignDTO(
    id: int,
    name: Option<string>,
    description: Option<string>,
    startDate: Option<int>,
    endDate: Option<int>,
    targetAmount: Option<real>,
    totalRaised: real,
    organizationName: Option<string>,
    organizationId: Option<int>)

  /** `convertToDTO`: the stored fields copied, the organization's name and id
      when the campaign has one, and the total recomputed from the donations. */
  function ConvertToDTO(c: Campaign, orgs: map<int, Organization>, ds: seq<Donation>): (r: CampaignDTO)
    ensures r.id == c.id && r.name == c.name && r.description == c.description
    ensures r.startDate == c.startDate && r.endDate == c.endDate && r.targetAmount == c.targetAmount
    ensures r.totalRaised == ActualTotalRaised(ds, c.id)
    ensures c.organizationId.None? ==> r.organizationName.None? && r.organizationId.None?
    ensures c.organizationId.Some? ==> r.organizationId == c.organizationId
    ensures c.organizationId.Some? && c.organizationId.value in orgs ==>
              r.organizationName == orgs[c.organizationId.value].name
  {
    var orgName :=
      if c.organizationId.Some? && c.organizationId.value in orgs then orgs[c.organizationId.value].name else None;
    CampaignDTO(c.id, c.name, c.description, c.startDate, c.endDate, c.targetAmount,
                ActualTotalRaised(ds, c.id), orgName, c.organizationId)
  }

  /** The view never reports the stored `totalRaised`: two campaigns that differ
      only in that column have the same view. */
  lemma DTOIgnoresStoredTotal(c: Campaign, stored: Option<real>, orgs: map<int, Organization>, ds: seq<Donation>)
    ensures ConvertToDTO(c.(totalRaised := stored), orgs, ds) == ConvertToDTO(c, orgs, ds)
  {
  }

  /** A worked case: a stored total of 0 next to a pending donation of 50 is
      reported as 50. */
  lemma DTOScenario(c: Campaign, d: Donation)
    requires c.totalRaised == Some(0.0)
    requires d == Donation(Some(50.0), 0, Some("pending"), None, None, None, Some(c.id))
    ensures ConvertToDTO(c, map[], [d]).totalRaised == 50.0
  {
    ActualTotalRaisedAppend([], d, c.id);
    ActualTotalRaisedEmpty(c.id);
    assert [] + [d] == [d];
  }

  function DTOs(cs: seq<Campaign>, orgs: map<int, Organization>, ds: seq<Donation>): (r: seq<CampaignDTO>)
    ensures |r| == |cs|
    ensures forall i :: 0 <= i < |cs| ==> r[i] == ConvertToDTO(cs[i], orgs, ds)
  {
    if cs == [] then [] else [ConvertToDTO(cs[0], orgs, ds)] + DTOs(cs[1..], orgs, ds)
  }

  predicate OfOrganization(c: Campaign, organizationId: int) {
    c.organizationId == Some(organizationId)
  }

  /** The campaigns linked to the organization, in repository order: the
      rows `findByOrganization` returns, and the rows JPA loads into
      `Organization.campaigns`. */
  function OrganizationCampaigns(cs: seq<Campaign>, organizationId: int): (r: seq<Campaign>)
    ensures forall c :: c in r <==> c in cs && c.organizationId == Some(organizationId)
  {
    Filter(cs, c => OfOrganization(c, organizationId))
  }

  /** `getCampaignsByOrganizationId`: the views of exactly the campaigns linked
      to the organization, in repository order. */
  function GetCampaignsByOrganizationId(cs: seq<Campaign>, orgs: map<int, Organization>, ds: seq<Donation>, organizationId: int)
    : (r: seq<CampaignDTO>)
    ensures forall c :: c in cs && c.organizationId == Some(organizationId) ==> ConvertToDTO(c, orgs, ds) in r
    ensures forall x :: x in r ==> exists c :: c in cs && c.organizationId == Some(organizationId) && x == ConvertToDTO(c, orgs, ds)
  {
    var mine := OrganizationCampaigns(cs, organizationId);
    var r := DTOs(mine, orgs, ds);
    assert forall c :: c in mine ==> ConvertToDTO(c, orgs, ds) in r by {
      forall c | c in mine ensures ConvertToDTO(c, orgs, ds) in r {
        var i :| 0 <= i < |mine| && mine[i] == c;
        assert r[i] == ConvertToDTO(c, orgs, ds);
      }
    }
    assert forall x :: x in r ==> exists c :: c in mine && x == ConvertToDTO(c, orgs, ds) by {
      forall x | x in r ensures exists c :: c in mine && x == ConvertToDTO(c, orgs, ds) {
        var i :| 0 <= i < |r| && r[i] == x;
        assert mine[i] in mine;
      }
    }
    r
  }

  /** Where `campaignRepository.save` puts a campaign: under its
      `campaignID` when a stored campaign has that id, otherwise under the
      next generated id (a body without `campaignID` is a create). */
  function SavedKey(st: Store, campaignId: Option<int>): int {
    if campaignId.Some? && campaignId.value in st.campaigns then campaignId.value else st.nextCampaignId
  }

  /** The effect of `saveCampaign`, behind both `POST /api/campaigns` and the
      update endpoint. `campaignId` is the campaign's own `campaignID`
      (`None` for null); `c`'s other fields are stored as given. An
      organization reference must name a stored organization. */
  function SaveCampaign(st: Store, c: Campaign, campaignId: Option<int>): (r: Result<Store, Error>)
    ensures r.Failure? <==> c.organizationId.Some? && c.organizationId.value !in st.organizations
    ensures r.Failure? ==> r.error == OrganizationNotFound(c.organizationId.value)
    ensures r.Success? ==>
      var key := SavedKey(st, campaignId);
      && r.value.campaigns == st.campaigns[key := c.(id := key)]
      && r.value.nextCampaignId == (if key in st.campaigns then st.nextCampaignId else st.nextCampaignId + 1)
      && r.value == st.(campaigns := r.value.campaigns, nextCampaignId := r.value.nextCampaignId)
  {
    if c.organizationId.Some? && c.organizationId.value !in st.organizations then
      Failure(OrganizationNotFound(c.organizationId.value))
    else
      var key := SavedKey(st, campaignId);
      Success(st.(campaigns := st.campaigns[key := c.(id := key)],
                  nextCampaignId := if key in st.campaigns then st.nextCampaignId else st.nextCampaignId + 1))
  }

  /** A create never overwrites: the new campaign gets an id no stored
      campaign has, every stored campaign is kept as it was, and the next
      create gets a different id again. */
  lemma SaveCreatesFresh(st: Store, c: Campaign, campaignId: Option<int>)
    requires WellKeyed(st) && SaveCampaign(st, c, campaignId).Success?
    requires campaignId.None? || campaignId.value !in st.campaigns
    ensures var st' := SaveCampaign(st, c, campaignId).value;
      && st.nextCampaignId !in st.campaigns
      && st'.campaigns.Keys == st.campaigns.Keys + {st.nextCampaignId}
      && st'.campaigns[st.nextCampaignId] == c.(id := st.nextCampaignId)
      && (forall k :: k in st.campaigns ==> st'.campaigns[k] == st.campaigns[k])
      && st'.nextCampaignId > st.nextCampaignId
  {
  }

  /** Saving under the id of a stored campaign replaces that campaign and no
      other, and generates no id. */
  lemma SaveOverwritesExisting(st: Store, c: Campaign, id: int)
    requires id in st.campaigns && SaveCampaign(st, c, Some(id)).Success?
    ensures var st' := SaveCampaign(st, c, Some(id)).value;
      && st'.campaigns.Keys == st.campaigns.Keys
      && st'.campaigns[id] == c.(id := id)
      && (forall k :: k in st.campaigns && k != id ==> st'.campaigns[k] == st.campaigns[k])
      && st'.nextCampaignId == st.nextCampaignId
  {
  }

  /** Saving keeps the store well keyed and never touches a wallet or the ledger. */
  lemma SaveCampaignKeepsWellKeyed(st: Store, c: Campaign, campaignId: Option<int>)
    requires WellKeyed(st) && SaveCampaign(st, c, campaignId).Success?
    ensures WellKeyed(SaveCampaign(st, c, campaignId).value)
    ensures SaveCampaign(st, c, campaignId).value.users == st.users
    ensures SaveCampaign(st, c, campaignId).value.transactions == st.transactions
  {
  }

  method SaveCampaignIn(db: Db, c: Campaign, campaignId: Option<int>) returns (r: Result<Campaign, Error>)
    modifies db
    ensures SaveCampaign(old(db.State()), c, campaignId) == (if r.Success? then Success(db.State()) else Failure(r.error))
    ensures r.Success? ==> r.value == c.(id := SavedKey(old(db.State()), campaignId))
  {
    if c.organizationId.Some? {
      var orgId := c.organizationId.value;
      if orgId !in db.organizations {
        return Failure(OrganizationNotFound(orgId));
      }
    }
    var key := SavedKey(db.State(), campaignId);
    if key !in db.campaigns {
      db.nextCampaignId := db.nextCampaignId + 1;
    }
    var saved := c.(id := key);
    db.campaigns := db.campaigns[key := saved];
    r := Success(saved);
  }
}
