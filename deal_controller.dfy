/**
 * The legacy deal handlers: a brand books an influencer's asset for a date range, priced from
 * the profile's day price, unless a live deal already books that asset on one of those days;
 * the influencer then accepts or rejects the pending deal.
 */
module DealController {
  import opened Common
  import opened DealModel
  import opened Db

  /**
   * No two live deals book the same asset of the same profile on a common day: the property
   * the overlap check of `createDeal` exists to keep.
   */
  ghost predicate DealsDisjoint(deals: map<Id, Deal>) {
    forall a, b :: a in deals && b in deals && a != b && Holds(deals[a].status) ==>
      !Blocks(deals[b], deals[a].socialProfile, deals[a].assetType, deals[a].startDate, deals[a].endDate)
  }

  /** The deal `createDeal` stores: pending, for the profile's owner, priced by started days. */
  function NewDeal(brand: Id, profile: Id, p: SocialProfile, assetType: AssetType, start: Millis, end: Millis): (d: Deal)
    requires start < end
    ensures d.status == Pending && d.brand == brand && d.influencer == p.influencer && d.socialProfile == profile
    ensures d.assetType == assetType && d.startDate == start && d.endDate == end
    ensures d.totalAmount == DurationDays(start, end) as real * DayPrice(p.pricing, assetType)
    ensures d.commissionAmount + d.influencerAmount == d.totalAmount
    ensures d.commissionAmount == d.totalAmount * DealCommissionRate
  {
    var amounts := Price(DurationDays(start, end), DayPrice(p.pricing, assetType));
    Deal(brand, p.influencer, profile, assetType, start, end,
         amounts.total, amounts.commission, amounts.influencerAmount, Pending)
  }

  /** Whether the brand's booking passes every check of `createDeal`. */
  predicate CreateDealAllowed(deals: map<Id, Deal>, profiles: map<Id, SocialProfile>, caller: Caller,
                              profile: Id, assetType: AssetType, start: Millis, end: Millis, newId: Id)
  {
    && caller.role == Brand
    && profile in profiles
    && start < end
    && !Booked(deals, profile, assetType, start, end)
    && newId !in deals
  }

  /** Storing a deal that no live deal blocks keeps live deals disjoint. */
  lemma {:induction false} AddDealKeepsDisjoint(deals: map<Id, Deal>, id: Id, d: Deal)
    requires DealsDisjoint(deals) && id !in deals && d.startDate <= d.endDate
    requires !Booked(deals, d.socialProfile, d.assetType, d.startDate, d.endDate)
    ensures DealsDisjoint(deals[id := d])
  {
    var deals' := deals[id := d];
    forall a, b | a in deals' && b in deals' && a != b && Holds(deals'[a].status)
      ensures !Blocks(deals'[b], deals'[a].socialProfile, deals'[a].assetType, deals'[a].startDate, deals'[a].endDate)
    {
      if a == id {
        assert !Blocks(deals[b], d.socialProfile, d.assetType, d.startDate, d.endDate);
      } else if b == id {
        assert !Blocks(deals[a], d.socialProfile, d.assetType, d.startDate, d.endDate);
      } else {
        assert deals'[a] == deals[a] && deals'[b] == deals[b];
      }
    }
  }

  /**
   * A brand books an asset of a social profile from `start` to `end` (already parsed to
   * milliseconds); `newId` is the id the database assigns.
   */
  method CreateDeal(db: Db, caller: Caller, profile: Id, assetType: AssetType, start: Millis, end: Millis, newId: Id)
    returns (r: Result<Deal>)
    requires DealsDisjoint(db.deals)
    modifies db
    ensures DealsDisjoint(db.deals)
    ensures caller.role != Brand ==> r == Err(ApiError(403, "Only brands can create deals"))
    ensures caller.role == Brand && profile !in db.profiles ==> r == Err(ApiError(404, "Social profile not found"))
    ensures caller.role == Brand && profile in db.profiles && end <= start ==>
              r == Err(ApiError(400, "End date must be after start date"))
    ensures (caller.role == Brand && profile in db.profiles && start < end &&
             Booked(old(db.deals), profile, assetType, start, end)) ==>
              r == Err(ApiError(400, "This asset is already booked for selected dates"))
    ensures r.Ok? <==> CreateDealAllowed(old(db.deals), db.profiles, caller, profile, assetType, start, end, newId)
    ensures r.Ok? ==> r.value == NewDeal(caller.id, profile, db.profiles[profile], assetType, start, end) &&
                      db.deals == old(db.deals)[newId := r.value]
    ensures r.Err? ==> db.deals == old(db.deals)
    ensures db.campaigns == old(db.campaigns) && db.applications == old(db.applications)
    ensures db.campaignOrder == old(db.campaignOrder) && db.applicationOrder == old(db.applicationOrder)
    ensures db.profiles == old(db.profiles) && db.payoutAccounts == old(db.payoutAccounts)
    ensures old(db.Valid()) ==> db.Valid()
  {
    if caller.role != Brand {
      return Err(ApiError(403, "Only brands can create deals"));
    }
    if profile !in db.profiles {
      return Err(ApiError(404, "Social profile not found"));
    }
    if end <= start {
      return Err(ApiError(400, "End date must be after start date"));
    }
    if Booked(db.deals, profile, assetType, start, end) {
      return Err(ApiError(400, "This asset is already booked for selected dates"));
    }
    if newId in db.deals {
      return Err(InternalError);
    }
    var d := NewDeal(caller.id, profile, db.profiles[profile], assetType, start, end);
    AddDealKeepsDisjoint(db.deals, newId, d);
    db.deals := db.deals[newId := d];
    r := Ok(d);
  }

  /** The influencer's answer to a pending deal. */
  function Responded(d: Deal, accept: bool): (e: Deal)
    ensures e.status == (if accept then Accepted else Rejected)
    ensures e == d.(status := e.status)
  {
    d.(status := if accept then Accepted else Rejected)
  }

  /**
   * Answering a pending deal keeps live deals disjoint: accepting keeps its dates, rejecting
   * frees them.
   */
  lemma {:induction false} RespondKeepsDisjoint(deals: map<Id, Deal>, id: Id, accept: bool)
    requires DealsDisjoint(deals) && id in deals && deals[id].status == Pending
    ensures DealsDisjoint(deals[id := Responded(deals[id], accept)])
  {
    var deals' := deals[id := Responded(deals[id], accept)];
    forall a, b | a in deals' && b in deals' && a != b && Holds(deals'[a].status)
      ensures !Blocks(deals'[b], deals'[a].socialProfile, deals'[a].assetType, deals'[a].startDate, deals'[a].endDate)
    {
      assert Holds(deals[a].status);
      assert !Blocks(deals[b], deals[a].socialProfile, deals[a].assetType, deals[a].startDate, deals[a].endDate);
    }
  }

  /**
   * The influencer of a pending deal accepts or rejects it. There is no role check: any caller
   * who is the deal's influencer may answer.
   */
  method RespondToDeal(db: Db, caller: Caller, id: Id, accept: bool) returns (r: Result<Deal>)
    requires DealsDisjoint(db.deals)
    modifies db
    ensures DealsDisjoint(db.deals)
    ensures id !in old(db.deals) ==> r == Err(ApiError(404, "Deal not found"))
    ensures id in old(db.deals) && old(db.deals)[id].influencer != caller.id ==> r == Err(ApiError(403, "Not authorized"))
    ensures (id in old(db.deals) && old(db.deals)[id].influencer == caller.id && old(db.deals)[id].status != Pending) ==>
              r == Err(ApiError(400, "Deal already processed"))
    ensures r.Ok? <==> id in old(db.deals) && old(db.deals)[id].influencer == caller.id && old(db.deals)[id].status == Pending
    ensures r.Ok? ==> r.value == Responded(old(db.deals)[id], accept) && db.deals == old(db.deals)[id := r.value]
    ensures r.Err? ==> db.deals == old(db.deals)
    ensures db.campaigns == old(db.campaigns) && db.applications == old(db.applications)
    ensures db.campaignOrder == old(db.campaignOrder) && db.applicationOrder == old(db.applicationOrder)
    ensures db.profiles == old(db.profiles) && db.payoutAccounts == old(db.payoutAccounts)
    ensures old(db.Valid()) ==> db.Valid()
  {
    if id !in db.deals {
      return Err(ApiError(404, "Deal not found"));
    }
    var d := db.deals[id];
    if d.influencer != caller.id {
      return Err(ApiError(403, "Not authorized"));
    }
    if d.status != Pending {
      return Err(ApiError(400, "Deal already processed"));
    }
    RespondKeepsDisjoint(db.deals, id, accept);
    var e := Responded(d, accept);
    db.deals := db.deals[id := e];
    r := Ok(e);
  }
}
