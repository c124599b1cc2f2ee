/** The Campaign record: its two status machines, its pricing snapshot and its processor handles. */
module CampaignModel {
  import opened Common

  datatype AssetType = Header | Bio | Post

  /** open → influencer_selected → funded → active → completed, or cancelled. */
  datatype CampaignStatus = Open | InfluencerSelected | Funded | Active | Completed | Cancelled

  /** The escrow payment state; `NoPayment` is the source's "none". */
  datatype PaymentStatus =
    | NoPayment | RequiresPayment | Processing | RequiresCapture | Captured
    | Succeeded | Canceled | Refunded | Failed

  /** The price fixed at selection: the application's price, the platform's part and the influencer's part. */
  datatype Snapshot = Snapshot(total: real, commission: real, influencerAmount: real)

  datatype Campaign = Campaign(
    brand: Id,
    assetType: AssetType,
    requirements: string,
    budgetMin: Option<real>,
    budgetMax: Option<real>,
    startDate: Millis,
    endDate: Millis,
    snapshot: Option<Snapshot>,
    selectedInfluencer: Option<Id>,
    selectedApplication: Option<Id>,
    selectedAt: Option<Millis>,
    status: CampaignStatus,
    paymentIntentId: Option<Id>,
    paymentStatus: PaymentStatus,
    capturedAt: Option<Millis>,
    refundId: Option<Id>,
    refundedAt: Option<Millis>,
    transferId: Option<Id>,
    paidOutAt: Option<Millis>,
    currency: string)

  /** The schema's `minlength` on `requirements`. */
  const MinRequirementsLength := 10

  /** Nothing has happened to the campaign yet: no selection, no price, no processor handle. */
  predicate Untouched(c: Campaign) {
    && c.status == Open
    && c.paymentStatus == NoPayment
    && c.snapshot.None?
    && c.selectedInfluencer.None? && c.selectedApplication.None? && c.selectedAt.None?
    && c.paymentIntentId.None? && c.capturedAt.None?
    && c.refundId.None? && c.refundedAt.None?
    && c.transferId.None? && c.paidOutAt.None?
  }

  /** A document as the schema creates it from the fields a brand supplies; every other field takes its default. */
  function NewCampaign(brand: Id, assetType: AssetType, requirements: string,
                       budgetMin: Option<real>, budgetMax: Option<real>,
                       startDate: Millis, endDate: Millis): (c: Campaign)
    ensures Untouched(c) && c.currency == "usd"
    ensures c.brand == brand && c.assetType == assetType && c.requirements == requirements
    ensures c.budgetMin == budgetMin && c.budgetMax == budgetMax
    ensures c.startDate == startDate && c.endDate == endDate
  {
    Campaign(brand, assetType, requirements, budgetMin, budgetMax, startDate, endDate,
             None, None, None, None, Open, None, NoPayment, None, None, None, None, None, "usd")
  }
}
