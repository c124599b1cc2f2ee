/**
 * The legacy Deal flow: a brand books an influencer's asset for a date range at the
 * profile's day price, and the influencer accepts or rejects the booking.
 */
module DealModel {
  import opened Common
  import CampaignModel
  type AssetType = CampaignModel.AssetType

  datatype DealStatus =
    | Pending | Accepted | Rejected | Funded | Active
    | Completed | Released | Cancelled | Disputed

  datatype Deal = Deal(
    brand: Id,
    influencer: Id,
    socialProfile: Id,
    assetType: AssetType,
    startDate: Millis,
    endDate: Millis,
    totalAmount: real,
    commissionAmount: real,
    influencerAmount: real,
    status: DealStatus)

  /** Day prices of one social profile (schema `min: 0` on each). */
  datatype Pricing = Pricing(header: real, bio: real, post: real)

  /** The parts of a social profile the core reads: its owner and its day prices. */
  datatype SocialProfile = SocialProfile(influencer: Id, pricing: Pricing)

  function DayPrice(p: Pricing, assetType: AssetType): real {
    match assetType
    case Header => p.header
    case Bio => p.bio
    case Post => p.post
  }

  /** The fixed platform commission of the deal flow: 15%. */
  const DealCommissionRate: real := 15.0 / 100.0

  /** `Math.ceil((end - start) / 86 400 000)`: the number of started days in the window. */
  function DurationDays(start: Millis, end: Millis): (days: int)
    requires start < end
    ensures days >= 1
    ensures (days - 1) * DayMillis < end - start <= days * DayMillis
  {
    (end - start + DayMillis - 1) / DayMillis
  }

  /** The three amounts of a new deal for `days` days at `dayPrice`. */
  function Price(days: int, dayPrice: real): (amounts: CampaignModel.Snapshot)
    ensures amounts.total == days as real * dayPrice
    ensures amounts.commission + amounts.influencerAmount == amounts.total
    ensures days >= 0 && dayPrice >= 0.0 ==> 0.0 <= amounts.commission <= amounts.total
    ensures amounts.influencerAmount == amounts.total * (85.0 / 100.0)
  {
    var total := days as real * dayPrice;
    var commission := total * DealCommissionRate;
    CampaignModel.Snapshot(total, commission, total - commission)
  }

  /** Statuses whose deal still holds its dates. */
  predicate Holds(s: DealStatus) {
    s !in {Rejected, Cancelled}
  }

  /** Deal `d` already books the asset on some day of [start, end] (both bounds inclusive). */
  predicate Blocks(d: Deal, socialProfile: Id, assetType: AssetType, start: Millis, end: Millis) {
    && d.socialProfile == socialProfile
    && d.assetType == assetType
    && Holds(d.status)
    && d.startDate <= end
    && d.endDate >= start
  }

  /** Whether any stored deal blocks the requested booking (the handler's `findOne`). */
  predicate Booked(deals: map<Id, Deal>, socialProfile: Id, assetType: AssetType, start: Millis, end: Millis) {
    exists id :: id in deals && Blocks(deals[id], socialProfile, assetType, start, end)
  }

  /** A rejected or cancelled deal never blocks, and one that ends exactly when the request starts does. */
  lemma {:induction false} BlocksBounds(d: Deal, start: Millis, end: Millis)
    ensures !Holds(d.status) ==> !Blocks(d, d.socialProfile, d.assetType, start, end)
    ensures Holds(d.status) && d.startDate <= d.endDate && d.endDate == start && start <= end ==>
              Blocks(d, d.socialProfile, d.assetType, start, end)
  {
  }
}
