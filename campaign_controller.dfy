/**
 * The brand's campaign handlers: creating a campaign, and selecting one influencer's
 * application, which fixes the campaign's price and rejects the other applicants.
 */
module CampaignController {
  import opened Common
  import opened CampaignModel
  import opened ApplicationModel
  import opened Overlap
  import opened Db
  import JsString

  /** The platform commission rate, a configuration value between 0 and 1. */
  type CommissionRate = r: real | 0.0 <= r <= 1.0

  /** The price fixed at selection: the platform keeps `rate` of the proposed price, the influencer the rest. */
  function PriceSnapshot(price: real, rate: CommissionRate): (s: Snapshot)
    ensures s.total == price
    ensures s.commission + s.influencerAmount == s.total
    ensures s.commission == price * rate
    ensures price >= 0.0 ==> 0.0 <= s.commission <= s.total && 0.0 <= s.influencerAmount <= s.total
  {
    Snapshot(price, price * rate, price - price * rate)
  }

  /**
   * The bulk update after a selection: every other application of campaign `cid` that is still
   * `Applied` becomes `Rejected`; nothing else changes.
   */
  function RejectSiblings(apps: map<Id, Application>, cid: Id, chosen: Id): (r: map<Id, Application>)
    ensures r.Keys == apps.Keys
    ensures forall x :: x in apps ==> r[x] == apps[x].(status := r[x].status)
    ensures forall x :: x in apps && apps[x].campaign == cid && x != chosen ==> r[x].status != Applied
    ensures forall x :: x in apps && r[x].status != apps[x].status ==>
              apps[x].status == Applied && r[x].status == Rejected && apps[x].campaign == cid && x != chosen
  {
    map x | x in apps :: if apps[x].campaign == cid && x != chosen && apps[x].status == Applied
                         then apps[x].(status := Rejected) else apps[x]
  }

  /** The campaign after the conditional update of a successful selection. */
  function Selected(c: Campaign, a: Application, aid: Id, rate: CommissionRate, now: Millis): (d: Campaign)
    ensures d.status == InfluencerSelected
    ensures d.selectedInfluencer == Some(a.influencer) && d.selectedApplication == Some(aid) && d.selectedAt == Some(now)
    ensures d.snapshot == Some(PriceSnapshot(a.proposedPrice, rate))
    ensures d == c.(status := d.status, selectedInfluencer := d.selectedInfluencer,
                    selectedApplication := d.selectedApplication, selectedAt := d.selectedAt, snapshot := d.snapshot)
  {
    c.(selectedInfluencer := Some(a.influencer), selectedApplication := Some(aid),
       snapshot := Some(PriceSnapshot(a.proposedPrice, rate)), status := InfluencerSelected, selectedAt := Some(now))
  }

  /** Whether the request passes every check of `createCampaign`. */
  predicate CreateAllowed(campaigns: map<Id, Campaign>, caller: Caller, requirements: string,
                          start: Millis, end: Millis, newId: Id) {
    caller.role == Brand && JsString.Length(requirements) >= MinRequirementsLength && start < end && newId !in campaigns
  }

  /**
   * Creates an open campaign for the calling brand. `newId` is the id the database assigns;
   * the dates are already parsed to milliseconds.
   */
  method CreateCampaign(db: Db, caller: Caller, assetType: AssetType, requirements: string,
                        budgetMin: Option<real>, budgetMax: Option<real>, start: Millis, end: Millis, newId: Id)
    returns (r: Result<Campaign>)
    requires db.Valid()
    modifies db
    ensures db.Valid()
    ensures caller.role != Brand ==> r == Err(ApiError(403, "Only brands can create campaigns"))
    ensures caller.role == Brand && JsString.Length(requirements) < MinRequirementsLength ==> r == Err(ValidationError)
    ensures caller.role == Brand && JsString.Length(requirements) >= MinRequirementsLength && end <= start ==>
              r == Err(ApiError(400, "End date must be after start date"))
    ensures r.Ok? <==> CreateAllowed(old(db.campaigns), caller, requirements, start, end, newId)
    ensures r.Ok? ==>
              && r.value == NewCampaign(caller.id, assetType, requirements, budgetMin, budgetMax, start, end)
              && db.campaigns == old(db.campaigns)[newId := r.value]
              && db.campaignOrder == old(db.campaignOrder) + [newId]
    ensures r.Err? ==> db.campaigns == old(db.campaigns) && db.campaignOrder == old(db.campaignOrder)
    ensures db.applications == old(db.applications) && db.applicationOrder == old(db.applicationOrder)
    ensures Evolved(old(db.campaigns), db.campaigns)
    ensures db.deals == old(db.deals) && db.profiles == old(db.profiles) && db.payoutAccounts == old(db.payoutAccounts)
  {
    if caller.role != Brand {
      return Err(ApiError(403, "Only brands can create campaigns"));
    }
    if JsString.Length(requirements) < MinRequirementsLength {
      return Err(ValidationError);
    }
    if end <= start {
      return Err(ApiError(400, "End date must be after start date"));
    }
    if newId in db.campaigns {
      return Err(InternalError);
    }
    var c := NewCampaign(caller.id, assetType, requirements, budgetMin, budgetMax, start, end);
    var campaigns', order' := db.campaigns[newId := c], db.campaignOrder + [newId];
    AddCampaignKeepsInv(db.campaigns, db.campaignOrder, db.applications, db.applicationOrder, db.processor.log,
                        newId, c, campaigns', order');
    db.campaigns, db.campaignOrder := campaigns', order';
    r := Ok(c);
  }

  /** Whether the caller is a brand and `cid` is its own open campaign: the campaign checks of `selectInfluencer`. */
  predicate OwnOpenCampaign(campaigns: map<Id, Campaign>, caller: Caller, cid: Id) {
    caller.role == Brand && cid in campaigns && campaigns[cid].brand == caller.id && campaigns[cid].status == Open
  }

  /** Whether the brand's request passes every check of `selectInfluencer` before the overlap query. */
  predicate SelectAllowed(campaigns: map<Id, Campaign>, apps: map<Id, Application>, caller: Caller, cid: Id, aid: Id) {
    && OwnOpenCampaign(campaigns, caller, cid)
    && aid in apps && apps[aid].campaign == cid && apps[aid].status == Applied
  }

  /**
   * The brand picks application `aid` for its campaign `cid`. After the guards and the overlap
   * query, the campaign is updated only if it is still open, then the application becomes
   * `Selected` and its still-applied siblings `Rejected`.
   */
  method SelectInfluencer(db: Db, caller: Caller, cid: Id, aid: Id, rate: CommissionRate, now: Millis)
    returns (r: Result<Campaign>)
    requires db.Valid()
    modifies db
    ensures db.Valid()
    ensures caller.role != Brand ==> r == Err(ApiError(403, "Only brands can select influencer"))
    ensures caller.role == Brand && cid !in old(db.campaigns) ==> r == Err(ApiError(404, "Campaign not found"))
    ensures (caller.role == Brand && cid in old(db.campaigns) && old(db.campaigns)[cid].brand != caller.id) ==>
              r == Err(ApiError(403, "Not authorized"))
    ensures (caller.role == Brand && cid in old(db.campaigns) && old(db.campaigns)[cid].brand == caller.id &&
             old(db.campaigns)[cid].status != Open) ==> r == Err(ApiError(400, "Campaign is not open"))
    ensures OwnOpenCampaign(old(db.campaigns), caller, cid) && aid !in old(db.applications) ==>
              r == Err(ApiError(404, "Application not found"))
    ensures (OwnOpenCampaign(old(db.campaigns), caller, cid) && aid in old(db.applications) &&
             old(db.applications)[aid].campaign != cid) ==>
              r == Err(ApiError(400, "Application does not belong to this campaign"))
    ensures (OwnOpenCampaign(old(db.campaigns), caller, cid) && aid in old(db.applications) &&
             old(db.applications)[aid].campaign == cid && old(db.applications)[aid].status != Applied) ==>
              r == Err(ApiError(400, "Application is not in applied state"))
    ensures r.Ok? <==>
              && SelectAllowed(old(db.campaigns), old(db.applications), caller, cid, aid)
              && FindConflict(old(db.campaignOrder), old(db.campaigns), old(db.applications)[aid].influencer,
                              old(db.campaigns)[cid].startDate, old(db.campaigns)[cid].endDate, Some(cid)).None?
    ensures SelectAllowed(old(db.campaigns), old(db.applications), caller, cid, aid) ==>
              var conflict := FindConflict(old(db.campaignOrder), old(db.campaigns), old(db.applications)[aid].influencer,
                                           old(db.campaigns)[cid].startDate, old(db.campaigns)[cid].endDate, Some(cid));
              conflict.Some? ==> r == Err(ApiError(409, "Influencer already booked in an overlapping campaign. Conflict: " + conflict.value))
    ensures r.Ok? ==>
              && r.value == Selected(old(db.campaigns)[cid], old(db.applications)[aid], aid, rate, now)
              && db.campaigns == old(db.campaigns)[cid := r.value]
              && db.applications == RejectSiblings(old(db.applications)[aid := old(db.applications)[aid].(status := ApplicationModel.Selected)], cid, aid)
    ensures r.Err? ==> db.campaigns == old(db.campaigns) && db.applications == old(db.applications)
    ensures db.campaignOrder == old(db.campaignOrder) && db.applicationOrder == old(db.applicationOrder)
    ensures Evolved(old(db.campaigns), db.campaigns) && AppsEvolved(old(db.applications), db.applications)
    ensures db.deals == old(db.deals) && db.profiles == old(db.profiles) && db.payoutAccounts == old(db.payoutAccounts)
  {
    if caller.role != Brand {
      return Err(ApiError(403, "Only brands can select influencer"));
    }
    if cid !in db.campaigns {
      return Err(ApiError(404, "Campaign not found"));
    }
    var c := db.campaigns[cid];
    if c.brand != caller.id {
      return Err(ApiError(403, "Not authorized"));
    }
    if c.status != Open {
      return Err(ApiError(400, "Campaign is not open"));
    }
    if aid !in db.applications {
      return Err(ApiError(404, "Application not found"));
    }
    var app := db.applications[aid];
    if app.campaign != cid {
      return Err(ApiError(400, "Application does not belong to this campaign"));
    }
    if app.status != Applied {
      return Err(ApiError(400, "Application is not in applied state"));
    }
    var conflict := FindConflict(db.campaignOrder, db.campaigns, app.influencer, c.startDate, c.endDate, Some(cid));
    if conflict.Some? {
      return Err(ApiError(409, "Influencer already booked in an overlapping campaign. Conflict: " + conflict.value));
    }
    // The conditional update: it applies only while the campaign is still open.
    if db.campaigns[cid].status != Open {
      return Err(ApiError(409, "Campaign already selected by someone else"));
    }
    var updated := CommitSelection(db, caller, cid, aid, rate, now);
    r := Ok(updated);
  }

  /** The writes of a selection that passed its guards: the campaign, then the applications. */
  method CommitSelection(db: Db, caller: Caller, cid: Id, aid: Id, rate: CommissionRate, now: Millis)
    returns (updated: Campaign)
    requires db.Valid() && SelectAllowed(db.campaigns, db.applications, caller, cid, aid)
    modifies db
    ensures db.Valid()
    ensures updated == Selected(old(db.campaigns)[cid], old(db.applications)[aid], aid, rate, now)
    ensures db.campaigns == old(db.campaigns)[cid := updated]
    ensures db.applications == RejectSiblings(old(db.applications)[aid := old(db.applications)[aid].(status := ApplicationModel.Selected)], cid, aid)
    ensures db.campaignOrder == old(db.campaignOrder) && db.applicationOrder == old(db.applicationOrder)
    ensures Evolved(old(db.campaigns), db.campaigns) && AppsEvolved(old(db.applications), db.applications)
    ensures db.deals == old(db.deals) && db.profiles == old(db.profiles) && db.payoutAccounts == old(db.payoutAccounts)
  {
    var app := db.applications[aid];
    updated := Selected(db.campaigns[cid], app, aid, rate, now);
    db.campaigns := db.campaigns[cid := updated];
    var chosenApps := db.applications[aid := app.(status := ApplicationModel.Selected)];
    db.applications := RejectSiblings(chosenApps, cid, aid);
    SelectKeepsInv(old(db.campaigns), db.campaignOrder, old(db.applications), db.applicationOrder, db.processor.log,
                   caller, cid, aid, rate, now, db.campaigns, db.applications);
  }

  /** A selection that passed its guards keeps the store invariant, and undoes nothing. */
  lemma {:induction false} SelectKeepsInv(cs: map<Id, Campaign>, corder: seq<Id>, apps: map<Id, Application>, aorder: seq<Id>,
                       log: seq<PaymentProcessor.Call>, caller: Caller, cid: Id, aid: Id, rate: CommissionRate, now: Millis,
                       cs': map<Id, Campaign>, apps': map<Id, Application>)
    requires Inv(cs, corder, apps, aorder, log)
    requires SelectAllowed(cs, apps, caller, cid, aid)
    requires cs' == cs[cid := Selected(cs[cid], apps[aid], aid, rate, now)]
    requires apps' == RejectSiblings(apps[aid := apps[aid].(status := ApplicationModel.Selected)], cid, aid)
    ensures Inv(cs', corder, apps', aorder, log) && Evolved(cs, cs') && AppsEvolved(apps, apps')
  {
    var d := Selected(cs[cid], apps[aid], aid, rate, now);
    SelectedApps(apps, cid, aid);
    RelabelKeepsOnePerPair(apps, apps');
    SelectKeepsSelection(cs, apps, d, apps', cid, aid);
    assert cs[cid].snapshot.None? && cs[cid].selectedApplication.None?;
    SelectedCampaignKeepsMoney(cs, corder, log, cid, d);
  }

  /** Writing the selection into an open campaign keeps the order and money parts and undoes nothing. */
  lemma {:induction false} SelectedCampaignKeepsMoney(cs: map<Id, Campaign>, corder: seq<Id>, log: seq<PaymentProcessor.Call>,
                                                      cid: Id, d: Campaign)
    requires OrderOf(corder, cs) && MoneyMovesOnce(cs, log) && cid in cs
    requires cs[cid].status == Open && cs[cid].snapshot.None? && cs[cid].selectedApplication.None? && d.status != Open
    requires d == cs[cid].(selectedInfluencer := d.selectedInfluencer, selectedApplication := d.selectedApplication,
                           selectedAt := d.selectedAt, snapshot := d.snapshot, status := d.status)
    ensures OrderOf(corder, cs[cid := d]) && MoneyMovesOnce(cs[cid := d], log) && Evolved(cs, cs[cid := d])
  {
    assert cs[cid := d].Keys == cs.Keys;
    assert Settled(cs[cid], d);
    UnchangedHandlesKeepMoney(cs, log, cid, d);
  }

  /** The applications after a selection: the chosen one is `Selected`, the others only lose `Applied`. */
  lemma SelectedApps(apps: map<Id, Application>, cid: Id, aid: Id)
    requires aid in apps && apps[aid].status == Applied
    ensures var apps' := RejectSiblings(apps[aid := apps[aid].(status := ApplicationModel.Selected)], cid, aid);
            && apps'.Keys == apps.Keys
            && (forall x :: x in apps ==> apps'[x].campaign == apps[x].campaign && apps'[x].influencer == apps[x].influencer)
            && (forall x :: x in apps && x != aid && Chosen(apps'[x].status) ==> Chosen(apps[x].status))
            && AppsEvolved(apps, apps')
  {
    var chosen := apps[aid := apps[aid].(status := ApplicationModel.Selected)];
    var apps' := RejectSiblings(chosen, cid, aid);
    assert forall x :: x in apps ==> apps'[x] == chosen[x].(status := apps'[x].status);
  }

  /** Rewriting one campaign without touching its refund and payout handles keeps money moving once. */
  lemma {:induction false} UnchangedHandlesKeepMoney(cs: map<Id, Campaign>, log: seq<PaymentProcessor.Call>, cid: Id, d: Campaign)
    requires MoneyMovesOnce(cs, log) && cid in cs
    requires d.refundId == cs[cid].refundId && d.transferId == cs[cid].transferId
    ensures MoneyMovesOnce(cs[cid := d], log)
  {
  }

  lemma SelectKeepsSelection(cs: map<Id, Campaign>, apps: map<Id, Application>,
                             d: Campaign, apps': map<Id, Application>, cid: Id, aid: Id)
    requires SelectionConsistent(cs, apps) && AppsHaveCampaigns(cs, apps)
    requires cid in cs && cs[cid].status == Open && aid in apps && apps[aid].campaign == cid
    requires d.selectedApplication == Some(aid) && d.status != Open
    requires apps'.Keys == apps.Keys
    requires forall x :: x in apps ==> apps'[x].campaign == apps[x].campaign && apps'[x].influencer == apps[x].influencer
    requires forall x :: x in apps && x != aid && Chosen(apps'[x].status) ==> Chosen(apps[x].status)
    ensures SelectionConsistent(cs[cid := d], apps') && AppsHaveCampaigns(cs[cid := d], apps')
  {
    var cs' := cs[cid := d];
    forall x | x in apps' && Chosen(apps'[x].status)
      ensures apps'[x].campaign in cs' && cs'[apps'[x].campaign].selectedApplication == Some(x)
    {
      if x != aid {
        assert Chosen(apps[x].status);
      }
    }
  }
}
