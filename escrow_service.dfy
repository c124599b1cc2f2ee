/**
 * Unwinding a campaign's escrow: cancel the authorisation while it is only a hold, otherwise
 * refund the captured payment once, adopting a refund the processor already has.
 */
module EscrowService {
  import opened Common
  import opened CampaignModel
  import opened PaymentProcessor
  import opened EscrowKeys
  import opened Db

  /**
   * What the processor answers during one release: whether the cancel call succeeds (it fails,
   * for instance, once the intent is no longer cancelable), the intent's status on retrieval, the
   * first refund already listed for the intent, and the id of a refund created now.
   */
  datatype ReleaseAnswers = ReleaseAnswers(cancelSucceeds: bool, latest: IntentStatus,
                                           existingRefund: Option<Id>, createdRefund: Id)

  /** The campaign after a refund `refund`: refunded and cancelled. */
  function RefundedWith(c: Campaign, refund: Id, now: Millis): (d: Campaign)
    ensures d.refundId == Some(refund) && d.refundedAt == Some(now)
    ensures d.paymentStatus == Refunded && d.status == Cancelled
  {
    c.(refundId := Some(refund), refundedAt := Some(now), paymentStatus := Refunded, status := Cancelled)
  }

  predicate HasRefund(calls: seq<Call>) {
    exists i :: 0 <= i < |calls| && calls[i].CreateRefund?
  }

  /**
   * `releaseEscrowFunds` on campaign `cid`, whose document is `c`: the campaign afterwards and
   * the processor calls made, in order. A held payment is cancelled first; if that fails, or the
   * payment was not a hold, the release goes on as `Unwind` says.
   */
  function Release(cid: Id, c: Campaign, ans: ReleaseAnswers, now: Millis): (out: (Campaign, seq<Call>))
    ensures c.paymentIntentId.None? ==> out == (c, [])
    ensures out.0 == c || (out.0.status == Cancelled && out.0.paymentStatus in {Canceled, Refunded})
    ensures out.0 == c.(paymentStatus := out.0.paymentStatus, status := out.0.status,
                        refundId := out.0.refundId, refundedAt := out.0.refundedAt)
    ensures c.refundId.Some? ==> out.0.refundId == c.refundId
  {
    if c.paymentIntentId.None? then (c, [])
    else if c.paymentStatus == RequiresCapture then
      var cancel := CancelIntent(c.paymentIntentId.value, Key(Cancel, cid));
      if ans.cancelSucceeds then (c.(paymentStatus := Canceled, status := Cancelled), [cancel])
      else
        var rest := Unwind(cid, c, ans, now);
        (rest.0, [cancel] + rest.1)
    else Unwind(cid, c, ans, now)
  }

  /**
   * The release after any cancel attempt: look the intent up; a canceled intent cancels the
   * campaign; an uncaptured one, or a campaign already refunded, stays as it is; otherwise the
   * first refund the processor lists is adopted, or one is created under the refund key.
   */
  function Unwind(cid: Id, c: Campaign, ans: ReleaseAnswers, now: Millis): (out: (Campaign, seq<Call>))
    requires c.paymentIntentId.Some?
    ensures |out.1| >= 1 && out.1[0] == RetrieveIntent(c.paymentIntentId.value)
    ensures out.0 == c || (out.0.status == Cancelled && out.0.paymentStatus in {Canceled, Refunded})
    ensures out.0 == c.(paymentStatus := out.0.paymentStatus, status := out.0.status,
                        refundId := out.0.refundId, refundedAt := out.0.refundedAt)
    ensures c.refundId.Some? ==> out.0.refundId == c.refundId
  {
    var pi := c.paymentIntentId.value;
    var looked := [RetrieveIntent(pi)];
    if ans.latest == IntentCanceled then (c.(paymentStatus := Canceled, status := Cancelled), looked)
    else if c.paymentStatus !in {Captured, Succeeded} && ans.latest != IntentSucceeded then (c, looked)
    else if c.refundId.Some? then (c, looked)
    else
      var listed := looked + [ListRefunds(pi)];
      match ans.existingRefund
      case Some(r) => (RefundedWith(c, r, now), listed)
      case None => (RefundedWith(c, ans.createdRefund, now), listed + [CreateRefund(pi, Key(Refund, cid))])
  }

  /**
   * The calls a release makes: a cancel only of a held payment and under the cancel key, and a
   * refund only as the last call, under the refund key, for a campaign with no refund recorded
   * and none listed by the processor. A successful cancel, or an intent found canceled, ends
   * the release with the campaign cancelled and no refund.
   */
  lemma {:induction false} ReleaseCalls(cid: Id, c: Campaign, ans: ReleaseAnswers, now: Millis)
    ensures var out := Release(cid, c, ans, now);
      && (forall i :: 0 <= i < |out.1| ==> !out.1[i].CreateTransfer? && !out.1[i].CreateIntent? && !out.1[i].CaptureIntent?)
      && (forall i :: 0 <= i < |out.1| && out.1[i].CreateRefund? ==>
            && i == |out.1| - 1
            && out.1[i] == CreateRefund(c.paymentIntentId.value, Key(Refund, cid))
            && c.refundId.None? && ans.existingRefund.None? && out.0.refundId == Some(ans.createdRefund))
      && (forall i :: 0 <= i < |out.1| && out.1[i].CancelIntent? ==>
            out.1[i] == CancelIntent(c.paymentIntentId.value, Key(Cancel, cid)) && c.paymentStatus == RequiresCapture)
      && (c.paymentIntentId.Some? && c.paymentStatus == RequiresCapture && ans.cancelSucceeds ==>
            out.0.paymentStatus == Canceled && out.0.status == Cancelled && !HasRefund(out.1))
      && ((c.paymentIntentId.Some? && !(c.paymentStatus == RequiresCapture && ans.cancelSucceeds) &&
           ans.latest == IntentCanceled) ==> out.0.paymentStatus == Canceled && out.0.status == Cancelled && !HasRefund(out.1))
  {
  }

  /**
   * Whatever the processor answers, two releases of the same campaign create at most one
   * refund between them: the first refund records its id, and the second release stops there.
   */
  lemma {:induction false} ReleaseTwiceRefundsOnce(cid: Id, c: Campaign, a1: ReleaseAnswers, a2: ReleaseAnswers,
                                                   now1: Millis, now2: Millis)
    ensures var first := Release(cid, c, a1, now1);
            HasRefund(first.1) ==> !HasRefund(Release(cid, first.0, a2, now2).1)
  {
    var first := Release(cid, c, a1, now1);
    ReleaseCalls(cid, c, a1, now1);
    ReleaseCalls(cid, first.0, a2, now2);
    if HasRefund(first.1) {
      var i :| 0 <= i < |first.1| && first.1[i].CreateRefund?;
      assert first.0.refundId.Some?;
    }
  }

  /**
   * A release that cancelled the hold, or refunded the payment, has done its work: releasing
   * again, with the processor reporting the intent canceled or (after a refund) anything else,
   * changes nothing and creates no refund.
   */
  lemma {:induction false} ReleaseSettles(cid: Id, c: Campaign, a1: ReleaseAnswers, a2: ReleaseAnswers,
                                          now1: Millis, now2: Millis)
    requires c.paymentIntentId.Some?
    ensures var first := Release(cid, c, a1, now1);
            var second := Release(cid, first.0, a2, now2);
            && (first.0.status == Cancelled && first.0.paymentStatus == Canceled && a2.latest == IntentCanceled ==>
                  second.0 == first.0 && !HasRefund(second.1))
            && (first.0.paymentStatus == Refunded && first.0.refundId.Some? && a2.latest != IntentCanceled ==>
                  second.0 == first.0 && second.1 == [RetrieveIntent(c.paymentIntentId.value)])
  {
  }

  /** A release keeps the store invariant and undoes nothing. */
  lemma {:induction false} ReleaseKeepsInv(cs: map<Id, Campaign>, corder: seq<Id>, apps: map<Id, ApplicationModel.Application>,
                                           aorder: seq<Id>, log: seq<Call>, cid: Id, ans: ReleaseAnswers, now: Millis)
    requires Inv(cs, corder, apps, aorder, log) && cid in cs
    ensures var out := Release(cid, cs[cid], ans, now);
            Inv(cs[cid := out.0], corder, apps, aorder, log + out.1) && Evolved(cs, cs[cid := out.0])
  {
    var out := Release(cid, cs[cid], ans, now);
    assert Settled(cs[cid], out.0);
    RewriteKeepsShape(cs, corder, apps, aorder, cid, out.0);
    ReleaseKeepsMoney(cs, log, cid, ans, now);
  }

  lemma {:induction false} ReleaseKeepsMoney(cs: map<Id, Campaign>, log: seq<Call>, cid: Id, ans: ReleaseAnswers, now: Millis)
    requires MoneyMovesOnce(cs, log) && cid in cs
    ensures var out := Release(cid, cs[cid], ans, now);
            MoneyMovesOnce(cs[cid := out.0], log + out.1) && Evolved(cs, cs[cid := out.0])
  {
    var out := Release(cid, cs[cid], ans, now);
    var cs' := cs[cid := out.0];
    ReleaseCalls(cid, cs[cid], ans, now);
    assert Settled(cs[cid], out.0);
    if HasRefund(out.1) {
      var n := |out.1| - 1;
      var quiet := out.1[..n];
      assert out.1 == quiet + [out.1[n]];
      assert log + out.1 == (log + quiet) + [out.1[n]];
      QuietStepKeepsMoney(cs, log, cs, quiet);
      FirstMoveKeepsMoney(cs, log + quiet, cs', out.1[n], cid);
    } else {
      QuietStepKeepsMoney(cs, log, cs', out.1);
    }
  }

  /**
   * Cancels or refunds the escrow of campaign `cid`, saving the campaign after the step that
   * decides the outcome; the processor's answers are `ans`.
   */
  method ReleaseEscrowFunds(db: Db, cid: Id, ans: ReleaseAnswers, now: Millis)
    requires cid in db.campaigns
    modifies db, db.processor
    ensures var out := Release(cid, old(db.campaigns[cid]), ans, now);
            db.campaigns == old(db.campaigns)[cid := out.0] && db.processor.log == old(db.processor.log) + out.1
    ensures db.applications == old(db.applications) && db.campaignOrder == old(db.campaignOrder)
    ensures db.applicationOrder == old(db.applicationOrder) && db.deals == old(db.deals)
    ensures db.profiles == old(db.profiles) && db.payoutAccounts == old(db.payoutAccounts)
  {
    var c := db.campaigns[cid];
    if c.paymentIntentId.None? {
      assert db.campaigns[cid := c] == db.campaigns;
      return;
    }
    if c.paymentStatus == RequiresCapture {
      db.processor.Cancel(c.paymentIntentId.value, Key(Cancel, cid));
      if ans.cancelSucceeds {
        db.campaigns := db.campaigns[cid := c.(paymentStatus := Canceled, status := Cancelled)];
        return;
      }
      // The cancel failed: carry on with the intent's current status.
    }
    UnwindEscrow(db, cid, ans, now);
  }

  /** The steps of a release after any cancel attempt, as `Unwind` states them. */
  method UnwindEscrow(db: Db, cid: Id, ans: ReleaseAnswers, now: Millis)
    requires cid in db.campaigns && db.campaigns[cid].paymentIntentId.Some?
    modifies db, db.processor
    ensures var out := Unwind(cid, old(db.campaigns[cid]), ans, now);
            db.campaigns == old(db.campaigns)[cid := out.0] && db.processor.log == old(db.processor.log) + out.1
    ensures db.applications == old(db.applications) && db.campaignOrder == old(db.campaignOrder)
    ensures db.applicationOrder == old(db.applicationOrder) && db.deals == old(db.deals)
    ensures db.profiles == old(db.profiles) && db.payoutAccounts == old(db.payoutAccounts)
  {
    var c := db.campaigns[cid];
    var pi := c.paymentIntentId.value;
    db.processor.Retrieve(pi);
    if ans.latest == IntentCanceled {
      db.campaigns := db.campaigns[cid := c.(paymentStatus := Canceled, status := Cancelled)];
      return;
    }
    if c.paymentStatus !in {Captured, Succeeded} && ans.latest != IntentSucceeded {
      assert db.campaigns[cid := c] == db.campaigns;
      return;
    }
    if c.refundId.Some? {
      assert db.campaigns[cid := c] == db.campaigns;
      return;
    }
    db.processor.ListRefundsOf(pi);
    if ans.existingRefund.Some? {
      db.campaigns := db.campaigns[cid := RefundedWith(c, ans.existingRefund.value, now)];
      return;
    }
    db.processor.Refund(pi, Key(Refund, cid));
    db.campaigns := db.campaigns[cid := RefundedWith(c, ans.createdRefund, now)];
  }
}
