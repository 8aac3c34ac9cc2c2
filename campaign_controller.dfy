/** The campaign update endpoint: copy the editable fields onto the stored
    campaign, keep its organization unless a new one is given, save, and
    answer with the recomputed view. */
module CampaignController {
  import opened Base
  import opened Entities
  import opened Repositories
  import CampaignService

  /** The stored campaign after the request's editable fields are copied onto
      it; the stored total and the id are never taken from the request. */
  function Edited(existing: Campaign, request: Campaign): (r: Campaign)
    ensures r.name == request.name && r.description == request.description
    ensures r.targetAmount == request.targetAmount
    ensures r.startDate == request.startDate && r.endDate == request.endDate
    ensures r.id == existing.id && r.totalRaised == existing.totalRaised
    ensures request.organizationId.None? ==> r.organizationId == existing.organizationId
    ensures request.organizationId.Some? ==> r.organizationId == request.organizationId
  {
    var c := existing.(name := request.name, description := request.description, targetAmount := request.targetAmount,
                       startDate := request.startDate, endDate := request.endDate);
    if request.organizationId.Some? then c.(organizationId := request.organizationId) else c
  }

  /** The effect of `updateCampaign`: an unknown id throws "Campaign not
      found", an unknown organization fails the save, and otherwise the
      edited campaign is stored and returned as a view. */
  function UpdateCampaign(st: Store, id: int, request: Campaign): (r: Result<(Store, CampaignService.CampaignDTO), Error>)
    ensures id !in st.campaigns ==> r == Failure(CampaignNotFound(id))
    ensures r.Success? <==> id in st.campaigns && CampaignService.SaveCampaign(st, Edited(st.campaigns[id], request), Some(id)).Success?
    ensures r.Success? ==>
      var c := Edited(st.campaigns[id], request).(id := id);
      && r.value.0 == st.(campaigns := st.campaigns[id := c])
      && r.value.1 == CampaignService.ConvertToDTO(c, st.organizations, st.donations)
  {
    if id !in st.campaigns then Failure(CampaignNotFound(id))
    else
      var c := Edited(st.campaigns[id], request);
      match CampaignService.SaveCampaign(st, c, Some(id))
      case Failure(e) => Failure(e)
      case Success(st') => Success((st', CampaignService.ConvertToDTO(c.(id := id), st.organizations, st.donations)))
  }

  /** An update is bookkeeping only: it keeps the stored total, touches no
      wallet, donation or ledger entry, reports the total recomputed from the
      donations, and repeating it changes nothing further. */
  lemma UpdateCampaignKeepsMoney(st: Store, id: int, request: Campaign)
    requires WellKeyed(st) && UpdateCampaign(st, id, request).Success?
    ensures var st' := UpdateCampaign(st, id, request).value.0;
      && WellKeyed(st')
      && st'.campaigns.Keys == st.campaigns.Keys
      && st'.campaigns[id].totalRaised == st.campaigns[id].totalRaised
      && st'.users == st.users && st'.donations == st.donations && st'.transactions == st.transactions
      && (forall k :: k in st.campaigns && k != id ==> st'.campaigns[k] == st.campaigns[k])
    ensures UpdateCampaign(st, id, request).value.1.totalRaised == CampaignService.ActualTotalRaised(st.donations, id)
    ensures UpdateCampaign(UpdateCampaign(st, id, request).value.0, id, request) == UpdateCampaign(st, id, request)
  {
    var st' := UpdateCampaign(st, id, request).value.0;
    var c := Edited(st.campaigns[id], request);
    assert c.id == id;
    assert Edited(c, request) == c;
    assert st'.campaigns[id := c] == st'.campaigns;
  }

  /** A request without an organization leaves the campaign's organization as stored. */
  lemma UpdateCampaignKeepsOrganization(st: Store, id: int, request: Campaign)
    requires WellKeyed(st) && id in st.campaigns && request.organizationId.None?
    ensures UpdateCampaign(st, id, request).Success? <==>
              st.campaigns[id].organizationId.None? || st.campaigns[id].organizationId.value in st.organizations
    ensures UpdateCampaign(st, id, request).Success? ==>
              UpdateCampaign(st, id, request).value.0.campaigns[id].organizationId == st.campaigns[id].organizationId
  {
  }

  method UpdateCampaignIn(db: Db, id: int, request: Campaign) returns (r: Result<CampaignService.CampaignDTO, Error>)
    modifies db
    ensures var spec := UpdateCampaign(old(db.State()), id, request);
      spec == (if r.Success? then Success((db.State(), r.value)) else Failure(r.error))
  {
    if id !in db.campaigns {
      return Failure(CampaignNotFound(id));
    }
    var existing := db.campaigns[id];
    existing := existing.(name := request.name);
    existing := existing.(description := request.description);
    existing := existing.(targetAmount := request.targetAmount);
    existing := existing.(startDate := request.startDate);
    existing := existing.(endDate := request.endDate);
    if request.organizationId.Some? {
      existing := existing.(organizationId := request.organizationId);
    }
    var saved := CampaignService.SaveCampaignIn(db, existing, Some(id));
    if saved.Failure? {
      return Failure(saved.error);
    }
    r := Success(CampaignService.ConvertToDTO(saved.value, db.organizations, db.donations));
  }
}
