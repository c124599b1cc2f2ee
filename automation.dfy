/**
 * The reconciliation sweep (`runAutomationInternal`): four passes over the database, each a
 * query followed by a loop over its result, proved step by step against the folds of
 * `AutomationModel`.
 */
module AutomationService {
  import opened Common
  import opened CampaignModel
  import opened ApplicationModel
  import opened PaymentProcessor
  import opened EscrowKeys
  import opened Db
  import opened AutomationModel

  /** Pass 1 on campaign `cid`: it becomes active and its selected application gets its proof deadline. */
  method ActivateOne(db: Db, cid: Id, now: Millis)
    requires cid in db.campaigns
    modifies db
    ensures db.View() == Activate(old(db.View()), cid)
    ensures db.campaignOrder == old(db.campaignOrder) && db.applicationOrder == old(db.applicationOrder)
    ensures db.deals == old(db.deals) && db.profiles == old(db.profiles) && db.payoutAccounts == old(db.payoutAccounts)
  {
    var c := db.campaigns[cid];
    db.campaigns := db.campaigns[cid := c.(status := Active)];
    if c.selectedApplication.Some? && c.selectedApplication.value in db.applications {
      var aid := c.selectedApplication.value;
      db.applications := db.applications[aid := db.applications[aid].(proofDueAt := Some(c.startDate + DayMillis))];
    }
  }

  /**
   * Pass 2 on application `aid`: cancels its campaign's hold or refunds its taken payment once,
   * under the sweep's keys, then marks the application `FailedProof`.
   */
  method FailOne(db: Db, aid: Id, now: Millis, refundFor: Id -> Id)
    requires aid in db.applications
    modifies db, db.processor
    ensures db.View() == FailProof(old(db.View()), aid, now, refundFor)
    ensures db.campaignOrder == old(db.campaignOrder) && db.applicationOrder == old(db.applicationOrder)
    ensures db.deals == old(db.deals) && db.profiles == old(db.profiles) && db.payoutAccounts == old(db.payoutAccounts)
  {
    var app := db.applications[aid];
    if app.campaign !in db.campaigns {
      return;
    }
    var cid := app.campaign;
    var c := db.campaigns[cid];
    if c.paymentIntentId.Some? && c.paymentStatus == RequiresCapture {
      db.processor.Cancel(c.paymentIntentId.value, SweepKey(SweepCancel, cid));
      c := c.(paymentStatus := Canceled, status := Cancelled);
      db.campaigns := db.campaigns[cid := c];
    }
    if c.paymentIntentId.Some? && c.paymentStatus in {Captured, Succeeded} && c.refundId.None? {
      db.processor.Refund(c.paymentIntentId.value, SweepKey(SweepRefund, cid));
      c := c.(refundId := Some(refundFor(cid)), refundedAt := Some(now), paymentStatus := PaymentStatus.Refunded,
              status := Cancelled);
      db.campaigns := db.campaigns[cid := c];
    }
    if app.status != FailedProof {
      db.applications := db.applications[aid := app.(status := FailedProof)];
    }
  }

  /** Pass 3 on application `aid`: approved now, if not approved already. */
  method ApproveOne(db: Db, aid: Id, now: Millis)
    requires aid in db.applications
    modifies db
    ensures db.View() == AutoApprove(old(db.View()), aid, now)
    ensures db.campaignOrder == old(db.campaignOrder) && db.applicationOrder == old(db.applicationOrder)
    ensures db.deals == old(db.deals) && db.profiles == old(db.profiles) && db.payoutAccounts == old(db.payoutAccounts)
  {
    var app := db.applications[aid];
    if app.status != Approved {
      db.applications := db.applications[aid := app.(status := Approved, approvedAt := Some(now))];
    }
  }

  /**
   * Pass 4 on campaign `cid`: skipped unless its application is approved, its influencer has a
   * payout account and the payment is taken; otherwise transfers the influencer's part under
   * the sweep's key, completes the campaign and releases the application.
   */
  method PayOutOne(db: Db, cid: Id, now: Millis, transferFor: Id -> Id) returns (transferred: bool)
    requires cid in db.campaigns
    modifies db, db.processor
    ensures (db.View(), transferred) == PayOut(old(db.View()), cid, now, db.payoutAccounts, transferFor)
    ensures db.campaignOrder == old(db.campaignOrder) && db.applicationOrder == old(db.applicationOrder)
    ensures db.deals == old(db.deals) && db.profiles == old(db.profiles) && db.payoutAccounts == old(db.payoutAccounts)
  {
    var c := db.campaigns[cid];
    if c.selectedApplication.None? || c.selectedApplication.value !in db.applications {
      return false;
    }
    var aid := c.selectedApplication.value;
    var app := db.applications[aid];
    if app.status != Approved {
      return false;
    }
    if app.influencer !in db.payoutAccounts || db.payoutAccounts[app.influencer] == "" {
      return false;
    }
    if c.paymentStatus !in {Captured, Succeeded} {
      return false;
    }
    db.processor.Transfer(PayoutCents(c), c.currency, db.payoutAccounts[app.influencer], SweepKey(SweepTransfer, cid));
    db.campaigns := db.campaigns[cid := c.(transferId := Some(transferFor(cid)), paidOutAt := Some(now), status := Completed)];
    if app.status != Released {
      db.applications := db.applications[aid := app.(status := Released)];
    }
    transferred := true;
  }

  /** Pass 1: activates every funded campaign whose start has come. */
  method ActivateCampaigns(db: Db, now: Millis) returns (activated: nat)
    modifies db
    ensures var batch := Find(DueToStart, db.campaignOrder, old(db.View()), now);
            db.View() == ActivateAll(old(db.View()), batch) && activated == |batch|
    ensures db.campaignOrder == old(db.campaignOrder) && db.applicationOrder == old(db.applicationOrder)
    ensures db.deals == old(db.deals) && db.profiles == old(db.profiles) && db.payoutAccounts == old(db.payoutAccounts)
  {
    var batch := Find(DueToStart, db.campaignOrder, State(db.campaigns, db.applications, db.processor.log), now);
    ghost var s0 := db.View();
    var i := 0;
    while i < |batch|
      invariant 0 <= i <= |batch| && db.View() == ActivateAll(s0, batch[..i])
      invariant forall k :: 0 <= k < |batch| ==> batch[k] in db.campaigns
      invariant db.campaignOrder == old(db.campaignOrder) && db.applicationOrder == old(db.applicationOrder)
      invariant db.deals == old(db.deals) && db.profiles == old(db.profiles) && db.payoutAccounts == old(db.payoutAccounts)
    {
      ActivateOne(db, batch[i], now);
      ActivateAllSnoc(s0, batch, i);
      i := i + 1;
    }
    assert batch[..i] == batch;
    activated := |batch|;
  }

  /** Pass 2: fails every selected application whose proof is overdue, unwinding its escrow. */
  method FailOverdueProofs(db: Db, now: Millis, refundFor: Id -> Id) returns (failed: nat)
    modifies db, db.processor
    ensures var batch := Find(ProofOverdue, db.applicationOrder, old(db.View()), now);
            db.View() == FailAll(old(db.View()), batch, now, refundFor) && failed == |batch|
    ensures db.campaignOrder == old(db.campaignOrder) && db.applicationOrder == old(db.applicationOrder)
    ensures db.deals == old(db.deals) && db.profiles == old(db.profiles) && db.payoutAccounts == old(db.payoutAccounts)
  {
    var batch := Find(ProofOverdue, db.applicationOrder, State(db.campaigns, db.applications, db.processor.log), now);
    ghost var s0 := db.View();
    var i := 0;
    while i < |batch|
      invariant 0 <= i <= |batch| && db.View() == FailAll(s0, batch[..i], now, refundFor)
      invariant forall k :: 0 <= k < |batch| ==> batch[k] in db.applications
      invariant db.campaignOrder == old(db.campaignOrder) && db.applicationOrder == old(db.applicationOrder)
      invariant db.deals == old(db.deals) && db.profiles == old(db.profiles) && db.payoutAccounts == old(db.payoutAccounts)
    {
      FailOne(db, batch[i], now, refundFor);
      FailAllSnoc(s0, batch, i, now, refundFor);
      i := i + 1;
    }
    assert batch[..i] == batch;
    failed := |batch|;
  }

  /** Pass 3: approves every submitted proof whose review is overdue. */
  method ApproveOverdueReviews(db: Db, now: Millis) returns (approved: nat)
    modifies db
    ensures var batch := Find(ReviewOverdue, db.applicationOrder, old(db.View()), now);
            db.View() == ApproveAll(old(db.View()), batch, now) && approved == |batch|
    ensures db.campaignOrder == old(db.campaignOrder) && db.applicationOrder == old(db.applicationOrder)
    ensures db.deals == old(db.deals) && db.profiles == old(db.profiles) && db.payoutAccounts == old(db.payoutAccounts)
  {
    var batch := Find(ReviewOverdue, db.applicationOrder, State(db.campaigns, db.applications, db.processor.log), now);
    ghost var s0 := db.View();
    var i := 0;
    while i < |batch|
      invariant 0 <= i <= |batch| && db.View() == ApproveAll(s0, batch[..i], now)
      invariant forall k :: 0 <= k < |batch| ==> batch[k] in db.applications
      invariant db.campaignOrder == old(db.campaignOrder) && db.applicationOrder == old(db.applicationOrder)
      invariant db.deals == old(db.deals) && db.profiles == old(db.profiles) && db.payoutAccounts == old(db.payoutAccounts)
    {
      ApproveOne(db, batch[i], now);
      ApproveAllSnoc(s0, batch, i, now);
      i := i + 1;
    }
    assert batch[..i] == batch;
    approved := |batch|;
  }

  /** Pass 4: pays out every active campaign that has ended without a payout, counting the transfers. */
  method ReleaseEndedCampaigns(db: Db, now: Millis, transferFor: Id -> Id) returns (transferred: nat)
    modifies db, db.processor
    ensures var batch := Find(Releasable, db.campaignOrder, old(db.View()), now);
            (db.View(), transferred) == PayAll(old(db.View()), batch, now, db.payoutAccounts, transferFor)
    ensures db.campaignOrder == old(db.campaignOrder) && db.applicationOrder == old(db.applicationOrder)
    ensures db.deals == old(db.deals) && db.profiles == old(db.profiles) && db.payoutAccounts == old(db.payoutAccounts)
  {
    var batch := Find(Releasable, db.campaignOrder, State(db.campaigns, db.applications, db.processor.log), now);
    ghost var s0 := db.View();
    ghost var accounts := db.payoutAccounts;
    var i := 0;
    transferred := 0;
    while i < |batch|
      invariant 0 <= i <= |batch|
      invariant db.View() == PayAll(s0, batch[..i], now, accounts, transferFor).0
      invariant transferred == PayAll(s0, batch[..i], now, accounts, transferFor).1
      invariant db.campaigns.Keys == s0.campaigns.Keys
      invariant db.campaignOrder == old(db.campaignOrder) && db.applicationOrder == old(db.applicationOrder)
      invariant db.deals == old(db.deals) && db.profiles == old(db.profiles) && db.payoutAccounts == accounts
    {
      assert Selects(Releasable, s0, now, batch[i]);
      ghost var before := db.View();
      var paid := PayOutOne(db, batch[i], now, transferFor);
      PayAllNext(s0, batch, i, now, accounts, transferFor, before, transferred, db.View(), paid);
      transferred := transferred + if paid then 1 else 0;
      i := i + 1;
    }
    assert batch[..i] == batch;
  }

  /**
   * The sweep, at instant `now` (one clock reading for the whole run): the four passes in
   * order, each querying what the previous one left; returns the sizes of the first three
   * batches and the number of transfers. `ans` gives the ids the processor assigns.
   */
  method RunAutomation(db: Db, now: Millis, ans: SweepAnswers) returns (summary: Summary)
    requires db.Valid()
    modifies db, db.processor
    ensures db.Valid()
    ensures (db.View(), summary) == Sweep(old(db.View()), db.campaignOrder, db.applicationOrder, now, db.payoutAccounts, ans)
    ensures db.campaignOrder == old(db.campaignOrder) && db.applicationOrder == old(db.applicationOrder)
    ensures db.deals == old(db.deals) && db.profiles == old(db.profiles) && db.payoutAccounts == old(db.payoutAccounts)
  {
    ghost var s := db.View();
    var activated := ActivateCampaigns(db, now);
    var failed := FailOverdueProofs(db, now, ans.refundFor);
    var approved := ApproveOverdueReviews(db, now);
    var transferred := ReleaseEndedCampaigns(db, now, ans.transferFor);
    summary := Summary(activated, failed, approved, transferred);
    SweepKeepsInv(s, db.campaignOrder, db.applicationOrder, now, db.payoutAccounts, ans);
  }
}
