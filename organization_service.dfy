/** Organization views and updates. */
module OrganizationService {
  import opened Base
  import opened Entities
  import opened Repositories
  import CampaignService

  /** The organization view; `totalRaised` sums the campaigns' stored totals. */
  datatype OrganizationDTO = OrganizationDTO(
    id: int,
    name: Option<string>,
    description: Option<string>,
    address: Option<string>,
    contactDetails: Option<string>,
    eligibilityProof: Option<string>,
    approvalStatus: Option<string>,
    totalRaised: real)

  /** A campaign's stored total as this view reads it: null counts as 0. */
  function StoredTotal(c: Campaign): real {
    c.totalRaised.GetOr(0.0)
  }

  /** `convertToDTO`: the organization's own fields, and the sum of its
      campaigns' stored totals, or 0 when the campaign list is null. */
  function ConvertToDTO(org: Organization, campaigns: Option<seq<Campaign>>): (r: OrganizationDTO)
    ensures r.id == org.id && r.name == org.name && r.description == org.description && r.address == org.address
    ensures r.contactDetails == org.contactDetails && r.eligibilityProof == org.eligibilityProof
    ensures r.approvalStatus == org.approvalStatus
    ensures campaigns.None? ==> r.totalRaised == 0.0
    ensures campaigns.Some? ==> r.totalRaised == SumOf(campaigns.value, StoredTotal)
  {
    var totalRaised := if campaigns.Some? then SumOf(campaigns.value, StoredTotal) else 0.0;
    OrganizationDTO(org.id, org.name, org.description, org.address, org.contactDetails,
                    org.eligibilityProof, org.approvalStatus, totalRaised)
  }

  /** The campaigns the organization view sums (`org.getCampaigns()`) are the
      ones the campaign endpoint lists for that organization, one for one and
      in the same order: the view adds up their stored totals, where the
      endpoint recomputes each from the donations. */
  lemma ViewSumsListedCampaigns(org: Organization, cs: seq<Campaign>, orgs: map<int, Organization>, ds: seq<Donation>)
    ensures var mine := CampaignService.OrganizationCampaigns(cs, org.id);
      var listed := CampaignService.GetCampaignsByOrganizationId(cs, orgs, ds, org.id);
      && |listed| == |mine|
      && (forall i :: 0 <= i < |mine| ==> listed[i] == CampaignService.ConvertToDTO(mine[i], orgs, ds))
      && (forall c :: c in mine <==> c in cs && c.organizationId == Some(org.id))
      && ConvertToDTO(org, Some(mine)).totalRaised == SumOf(mine, StoredTotal)
  {
  }

  /** The organization total adds up campaign by campaign. */
  lemma TotalOverCampaignLists(org: Organization, a: seq<Campaign>, b: seq<Campaign>)
    ensures ConvertToDTO(org, Some(a + b)).totalRaised
            == ConvertToDTO(org, Some(a)).totalRaised + ConvertToDTO(org, Some(b)).totalRaised
  {
    SumAppend(a, b, StoredTotal);
  }

  /** The view reads the stored column and not the donations: a campaign whose
      stored total is 0 adds 0 to its organization, while the campaign's own
      view reports the 50 donated to it. */
  lemma StoredAndRecomputedDiffer(org: Organization, c: Campaign, d: Donation)
    requires c.totalRaised == Some(0.0) && c.organizationId == Some(org.id)
    requires d == Donation(Some(50.0), 0, Some("completed"), None, None, None, Some(c.id))
    ensures ConvertToDTO(org, Some([c])).totalRaised == 0.0
    ensures CampaignService.ConvertToDTO(c, map[org.id := org], [d]).totalRaised == 50.0
  {
    assert SumOf([c], StoredTotal) == StoredTotal(c) + SumOf([], StoredTotal);
    CampaignService.ActualTotalRaisedAppend([], d, c.id);
    CampaignService.ActualTotalRaisedEmpty(c.id);
    assert [] + [d] == [d];
  }

  /** The four fields `updateOrganization` copies from the request. */
  function Updated(org: Organization, details: Organization): (r: Organization)
    ensures r.name == details.name && r.contactDetails == details.contactDetails
    ensures r.eligibilityProof == details.eligibilityProof && r.approvalStatus == details.approvalStatus
    ensures r.id == org.id && r.description == org.description && r.address == org.address && r.userId == org.userId
  {
    org.(name := details.name, contactDetails := details.contactDetails,
         eligibilityProof := details.eligibilityProof, approvalStatus := details.approvalStatus)
  }

  /** Updating twice is the same as updating once with the second request;
      updating with the same request twice changes nothing further. */
  lemma UpdatedLastWins(org: Organization, d1: Organization, d2: Organization)
    ensures Updated(Updated(org, d1), d2) == Updated(org, d2)
    ensures Updated(Updated(org, d1), d1) == Updated(org, d1)
  {
  }

  /** The effect of `updateOrganization`. */
  function UpdateOrganization(st: Store, id: int, details: Organization): (r: Result<Store, Error>)
    ensures r.Failure? <==> id !in st.organizations
    ensures r.Failure? ==> r.error == OrganizationNotFound(id)
    ensures r.Success? ==> r.value == st.(organizations := st.organizations[id := Updated(st.organizations[id], details)])
  {
    if id in st.organizations then
      Success(st.(organizations := st.organizations[id := Updated(st.organizations[id], details)]))
    else Failure(OrganizationNotFound(id))
  }

  lemma UpdateOrganizationKeepsWellKeyed(st: Store, id: int, details: Organization)
    requires WellKeyed(st) && UpdateOrganization(st, id, details).Success?
    ensures WellKeyed(UpdateOrganization(st, id, details).value)
    ensures UpdateOrganization(st, id, details).value.users == st.users
  {
  }

  method UpdateOrganizationIn(db: Db, id: int, details: Organization) returns (r: Result<Organization, Error>)
    modifies db
    ensures UpdateOrganization(old(db.State()), id, details) == (if r.Success? then Success(db.State()) else Failure(r.error))
    ensures r.Success? ==> id in db.organizations && r.value == db.organizations[id]
  {
    if id !in db.organizations {
      return Failure(OrganizationNotFound(id));
    }
    var org := db.organizations[id];
    org := org.(name := details.name);
    org := org.(contactDetails := details.contactDetails);
    org := org.(eligibilityProof := details.eligibilityProof);
    org := org.(approvalStatus := details.approvalStatus);
    db.organizations := db.organizations[id := org];
    r := Success(org);
  }

  predicate Linked(orgs: map<int, Organization>, userId: int, k: int) {
    k in orgs && orgs[k].userId == Some(userId)
  }

  /** At most one organization is linked to `userId`. */
  ghost predicate LinkedAtMostOnce(orgs: map<int, Organization>, userId: int) {
    forall k1, k2 :: Linked(orgs, userId, k1) && Linked(orgs, userId, k2) ==> k1 == k2
  }

  /** `getOrganizationByUserId`: the single organization linked to the user;
      none is "Organization not found for user id", several make the finder throw. */
  method GetOrganizationByUserId(orgs: map<int, Organization>, userId: int) returns (r: Result<Organization, Error>)
    ensures r.Success? <==> (exists k :: Linked(orgs, userId, k)) && LinkedAtMostOnce(orgs, userId)
    ensures r.Success? ==> exists k :: Linked(orgs, userId, k) && r.value == orgs[k]
    ensures r.Success? ==> r.value.userId == Some(userId)
    ensures !(exists k :: Linked(orgs, userId, k)) ==> r == Failure(OrganizationNotFoundForUser(userId))
    ensures !LinkedAtMostOnce(orgs, userId) ==> r == Failure(NonUniqueResult)
  {
    if !(exists k :: k in orgs && Linked(orgs, userId, k)) {
      return Failure(OrganizationNotFoundForUser(userId));
    }
    var k :| k in orgs && Linked(orgs, userId, k);
    if exists k2 :: k2 in orgs && Linked(orgs, userId, k2) && k2 != k {
      return Failure(NonUniqueResult);
    }
    r := Success(orgs[k]);
  }
}
