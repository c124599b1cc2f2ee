/**
 * The brand's payment into escrow and the processor's webhook: paying creates (or resumes) a
 * manual-capture payment intent for the campaign's total, and the webhook events move the
 * campaign's payment status as the processor reports holds, captures, failures, cancellations
 * and refunds.
 */
module StripeController {
  import opened Common
  import opened CampaignModel
  import opened PaymentProcessor
  import opened EscrowKeys
  import opened Db

  /** Payment statuses after which paying creates a new intent instead of resuming the old one. */
  predicate Terminal(s: PaymentStatus) {
    s in {Failed, Canceled, Refunded}
  }

  /**
   * A campaign amount in the currency's smallest unit: the amount times 100, rounded as
   * JavaScript rounds, refused with a 400 unless it is positive.
   */
  function ToStripeAmount(amount: real): (r: Result<int>)
    ensures r.Ok? <==> amount >= 1.0 / 200.0
    ensures r.Ok? ==> r.value > 0 && r.value as real - 1.0 / 2.0 <= amount * 100.0 < r.value as real + 1.0 / 2.0
    ensures r.Err? ==> r.error == ApiError(400, "Campaign amount must be greater than zero")
  {
    var cents := JsRound(amount * 100.0);
    if cents <= 0 then Err(ApiError(400, "Campaign amount must be greater than zero")) else Ok(cents)
  }

  /** The campaign's payment status for an intent status the processor reports. */
  function MapIntentStatus(s: IntentStatus): (p: PaymentStatus)
    ensures p == RequiresCapture <==> s == IntentRequiresCapture
    ensures p == Captured <==> s == IntentSucceeded
    ensures p == Processing <==> s == IntentProcessing
    ensures Terminal(p) <==> s == IntentCanceled
    ensures p == RequiresPayment <==> s in {RequiresPaymentMethod, RequiresConfirmation, RequiresAction}
    ensures p !in {NoPayment, Succeeded, Refunded, Failed}
  {
    match s
    case IntentRequiresCapture => RequiresCapture
    case IntentSucceeded => Captured
    case IntentCanceled => Canceled
    case IntentProcessing => Processing
    case RequiresPaymentMethod => RequiresPayment
    case RequiresConfirmation => RequiresPayment
    case RequiresAction => RequiresPayment
  }

  /** Whether the brand's request passes every check of `payForCampaign`. */
  predicate PayAllowed(campaigns: map<Id, Campaign>, caller: Caller, cid: Id) {
    && caller.role == Brand
    && cid in campaigns && campaigns[cid].brand == caller.id
    && campaigns[cid].status == InfluencerSelected
    && campaigns[cid].snapshot.Some? && campaigns[cid].snapshot.value.total > 0.0
  }

  /** The guards of `payForCampaign`, in the handler's order: the error it answers with, or none. */
  function PayCheck(campaigns: map<Id, Campaign>, caller: Caller, cid: Id): (e: Option<ApiError>)
    ensures e.None? <==> PayAllowed(campaigns, caller, cid)
    ensures caller.role != Brand ==> e == Some(ApiError(403, "Only brands can pay"))
    ensures caller.role == Brand && cid !in campaigns ==> e == Some(ApiError(404, "Campaign not found"))
    ensures caller.role == Brand && cid in campaigns && campaigns[cid].brand != caller.id ==>
              e == Some(ApiError(403, "Not authorized"))
    ensures (caller.role == Brand && cid in campaigns && campaigns[cid].brand == caller.id &&
             campaigns[cid].status != InfluencerSelected) ==> e == Some(ApiError(400, "Campaign not ready for payment"))
  {
    if caller.role != Brand then Some(ApiError(403, "Only brands can pay"))
    else if cid !in campaigns then Some(ApiError(404, "Campaign not found"))
    else if campaigns[cid].brand != caller.id then Some(ApiError(403, "Not authorized"))
    else if campaigns[cid].status != InfluencerSelected then Some(ApiError(400, "Campaign not ready for payment"))
    else if campaigns[cid].snapshot.None? || campaigns[cid].snapshot.value.total <= 0.0 then
      Some(ApiError(400, "Campaign total amount is invalid"))
    else None
  }

  /**
   * What the processor answers while paying: the status of the campaign's current intent when
   * it is retrieved, and the id and status of an intent created now.
   */
  datatype PayAnswers = PayAnswers(existingStatus: IntentStatus, createdIntent: Id, createdStatus: IntentStatus)

  /** The reply to the brand: the intent to confirm, its status, and whether it was resumed. */
  datatype PayReply = PayReply(intent: Id, status: IntentStatus, reused: bool)

  /**
   * A payment that passed the guards: the reply, the campaign afterwards and the calls made.
   * A live intent is retrieved and its status copied; otherwise a manual-capture intent for the
   * total is created under the payment-intent key.
   */
  function Pay(cid: Id, c: Campaign, ans: PayAnswers): (out: (Result<PayReply>, Campaign, seq<Call>))
    requires c.snapshot.Some?
    ensures out.0.Ok? <==> (c.paymentIntentId.Some? && !Terminal(c.paymentStatus)) || c.snapshot.value.total >= 1.0 / 200.0
    ensures out.0.Ok? ==> out.0.value.reused == (c.paymentIntentId.Some? && !Terminal(c.paymentStatus))
    ensures out.0.Err? ==> out.0.error == ApiError(400, "Campaign amount must be greater than zero")
  {
    if c.paymentIntentId.Some? && !Terminal(c.paymentStatus) then
      (Ok(PayReply(c.paymentIntentId.value, ans.existingStatus, true)),
       c.(paymentStatus := MapIntentStatus(ans.existingStatus)),
       [RetrieveIntent(c.paymentIntentId.value)])
    else
      match ToStripeAmount(c.snapshot.value.total)
      case Err(e) => (Err(e), c, [])
      case Ok(amount) =>
        (Ok(PayReply(ans.createdIntent, ans.createdStatus, false)),
         c.(paymentIntentId := Some(ans.createdIntent), paymentStatus := MapIntentStatus(ans.createdStatus)),
         [CreateIntent(amount, c.currency, Key(PaymentIntent, cid))])
  }

  /**
   * Paying makes at most one call and never captures, cancels, refunds or pays out; it creates
   * an intent only when there is no live one, under the campaign's payment-intent key and for
   * the total in cents; it touches only the intent handle and the payment status.
   */
  lemma {:induction false} PayCalls(cid: Id, c: Campaign, ans: PayAnswers)
    requires c.snapshot.Some?
    ensures var out := Pay(cid, c, ans);
      && |out.2| <= 1
      && (forall i :: 0 <= i < |out.2| ==> out.2[i].RetrieveIntent? || out.2[i].CreateIntent?)
      && (forall i :: 0 <= i < |out.2| && out.2[i].CreateIntent? ==>
            && (c.paymentIntentId.None? || Terminal(c.paymentStatus))
            && out.2[i] == CreateIntent(JsRound(c.snapshot.value.total * 100.0), c.currency, Key(PaymentIntent, cid))
            && out.2[i].amount > 0)
      && out.1 == c.(paymentIntentId := out.1.paymentIntentId, paymentStatus := out.1.paymentStatus)
      && (out.0.Ok? ==> out.1.paymentIntentId == Some(out.0.value.intent))
      && (out.0.Err? ==> out.1 == c && out.2 == [])
  {
  }

  /**
   * Paying twice creates at most one intent: once a payment succeeded the campaign records a
   * live intent, unless the processor reported it canceled, and paying again resumes it.
   */
  lemma {:induction false} PayTwiceCreatesOnce(cid: Id, c: Campaign, a1: PayAnswers, a2: PayAnswers)
    requires c.snapshot.Some?
    requires var first := Pay(cid, c, a1);
             first.0.Ok? && !Terminal(first.1.paymentStatus)
    ensures var first := Pay(cid, c, a1);
            var second := Pay(cid, first.1, a2);
            && second.0 == Ok(PayReply(first.0.value.intent, a2.existingStatus, true))
            && second.2 == [RetrieveIntent(first.0.value.intent)]
  {
    var first := Pay(cid, c, a1);
    PayCalls(cid, c, a1);
    assert first.1.snapshot == c.snapshot;
  }

  /** A payment that passed the guards keeps the store invariant and undoes nothing. */
  lemma {:induction false} PayKeepsInv(cs: map<Id, Campaign>, corder: seq<Id>, apps: map<Id, ApplicationModel.Application>,
                                       aorder: seq<Id>, log: seq<Call>, cid: Id, ans: PayAnswers,
                                       cs': map<Id, Campaign>, log': seq<Call>)
    requires Inv(cs, corder, apps, aorder, log) && cid in cs && cs[cid].snapshot.Some?
    requires cs' == cs[cid := Pay(cid, cs[cid], ans).1] && log' == log + Pay(cid, cs[cid], ans).2
    ensures Inv(cs', corder, apps, aorder, log') && Evolved(cs, cs')
  {
    var out := Pay(cid, cs[cid], ans);
    PayCalls(cid, cs[cid], ans);
    assert Settled(cs[cid], out.1);
    QuietRewriteKeepsInv(cs, corder, apps, aorder, log, cid, out.1, out.2, cs', log');
  }

  /**
   * The brand pays for its campaign once an influencer is selected: the campaign's live intent
   * is resumed, or a new one is created; `ans` are the processor's answers.
   */
  method PayForCampaign(db: Db, caller: Caller, cid: Id, ans: PayAnswers) returns (r: Result<PayReply>)
    requires db.Valid()
    modifies db, db.processor
    ensures db.Valid()
    ensures var e := PayCheck(old(db.campaigns), caller, cid);
            e.Some? ==> r == Err(e.value) && db.campaigns == old(db.campaigns) && db.processor.log == old(db.processor.log)
    ensures PayAllowed(old(db.campaigns), caller, cid) ==>
              var out := Pay(cid, old(db.campaigns)[cid], ans);
              && r == out.0
              && db.campaigns == old(db.campaigns)[cid := out.1]
              && db.processor.log == old(db.processor.log) + out.2
    ensures db.applications == old(db.applications)
    ensures db.campaignOrder == old(db.campaignOrder) && db.applicationOrder == old(db.applicationOrder)
    ensures Evolved(old(db.campaigns), db.campaigns)
    ensures db.deals == old(db.deals) && db.profiles == old(db.profiles) && db.payoutAccounts == old(db.payoutAccounts)
  {
    var e := PayCheck(db.campaigns, caller, cid);
    if e.Some? {
      return Err(e.value);
    }
    var c := db.campaigns[cid];
    if c.paymentIntentId.Some? && !Terminal(c.paymentStatus) {
      db.processor.Retrieve(c.paymentIntentId.value);
      var mapped := MapIntentStatus(ans.existingStatus);
      if c.paymentStatus != mapped {
        db.campaigns := db.campaigns[cid := c.(paymentStatus := mapped)];
      } else {
        assert db.campaigns[cid := c.(paymentStatus := mapped)] == db.campaigns;
      }
      r := Ok(PayReply(c.paymentIntentId.value, ans.existingStatus, true));
    } else {
      var amount := ToStripeAmount(c.snapshot.value.total);
      if amount.Err? {
        assert db.campaigns[cid := c] == db.campaigns;
        return Err(amount.error);
      }
      db.processor.CreateIntent(amount.value, c.currency, Key(PaymentIntent, cid));
      db.campaigns := db.campaigns[cid := c.(paymentIntentId := Some(ans.createdIntent),
                                             paymentStatus := MapIntentStatus(ans.createdStatus))];
      r := Ok(PayReply(ans.createdIntent, ans.createdStatus, false));
    }
    PayKeepsInv(old(db.campaigns), db.campaignOrder, db.applications, db.applicationOrder, old(db.processor.log),
                cid, ans, db.campaigns, db.processor.log);
  }

  /** The processor events the webhook acts on; a refunded charge may carry no intent id. */
  datatype Event =
    | AmountCapturableUpdated(intent: Id)
    | PaymentIntentSucceeded(intent: Id)
    | PaymentIntentFailed(intent: Id)
    | PaymentIntentCanceled(intent: Id)
    | ChargeRefunded(paymentIntent: Option<Id>)
    | OtherEvent

  /** The intent whose campaign an event updates, if any. */
  function EventIntent(e: Event): (r: Option<Id>)
    ensures e.OtherEvent? ==> r.None?
    ensures e.ChargeRefunded? ==> r == e.paymentIntent
    ensures !e.OtherEvent? && !e.ChargeRefunded? ==> r == Some(e.intent)
  {
    match e
    case AmountCapturableUpdated(i) => Some(i)
    case PaymentIntentSucceeded(i) => Some(i)
    case PaymentIntentFailed(i) => Some(i)
    case PaymentIntentCanceled(i) => Some(i)
    case ChargeRefunded(i) => i
    case OtherEvent => None
  }

  /** The first campaign, in collection order, whose payment intent is `intent` (`findOne`). */
  function FindByIntent(order: seq<Id>, campaigns: map<Id, Campaign>, intent: Id): (r: Option<Id>)
    ensures r.Some? ==> r.value in order && r.value in campaigns && campaigns[r.value].paymentIntentId == Some(intent)
    ensures r.None? <==>
              forall i :: 0 <= i < |order| ==> !(order[i] in campaigns && campaigns[order[i]].paymentIntentId == Some(intent))
  {
    if order == [] then None
    else if order[0] in campaigns && campaigns[order[0]].paymentIntentId == Some(intent) then Some(order[0])
    else
      var r := FindByIntent(order[1..], campaigns, intent);
      assert forall i :: 1 <= i < |order| ==> order[i] == order[1..][i - 1];
      r
  }

  /**
   * Which campaign an event finds does not depend on anything but the intent handles: two
   * stores with the same ids and the same handles give the same answer.
   */
  lemma {:induction false} FindByIntentStable(order: seq<Id>, cs: map<Id, Campaign>, cs': map<Id, Campaign>, intent: Id)
    requires cs'.Keys == cs.Keys
    requires forall id :: id in cs ==> cs'[id].paymentIntentId == cs[id].paymentIntentId
    ensures FindByIntent(order, cs', intent) == FindByIntent(order, cs, intent)
    decreases |order|
  {
    if order != [] {
      FindByIntentStable(order[1..], cs, cs', intent);
    }
  }

  /** The hold is placed: a selected campaign becomes funded. */
  function SetFunded(c: Campaign): (d: Campaign)
    ensures d.paymentStatus == RequiresCapture
    ensures d.status == (if c.status == InfluencerSelected then Funded else c.status)
    ensures d == c.(paymentStatus := d.paymentStatus, status := d.status)
  {
    c.(status := if c.status == InfluencerSelected then Funded else c.status, paymentStatus := RequiresCapture)
  }

  /** The payment is taken. */
  function SetCaptured(c: Campaign, now: Millis): (d: Campaign)
    ensures d.paymentStatus == Captured && d.capturedAt == Some(now)
    ensures d == c.(paymentStatus := d.paymentStatus, capturedAt := d.capturedAt)
  {
    c.(paymentStatus := Captured, capturedAt := Some(now))
  }

  /** The payment failed: a funded campaign goes back to waiting for payment. */
  function SetFailed(c: Campaign): (d: Campaign)
    ensures d.paymentStatus == Failed
    ensures d.status == (if c.status == Funded then InfluencerSelected else c.status)
    ensures d == c.(paymentStatus := d.paymentStatus, status := d.status)
  {
    c.(paymentStatus := Failed, status := if c.status == Funded then InfluencerSelected else c.status)
  }

  /** The intent was canceled: a campaign not yet under way is cancelled. */
  function SetCanceled(c: Campaign): (d: Campaign)
    ensures d.paymentStatus == Canceled
    ensures d.status == (if c.status in {Funded, InfluencerSelected} then Cancelled else c.status)
    ensures d == c.(paymentStatus := d.paymentStatus, status := d.status)
  {
    c.(paymentStatus := Canceled, status := if c.status in {Funded, InfluencerSelected} then Cancelled else c.status)
  }

  /** The charge was refunded: the campaign is cancelled, whatever its status. */
  function SetRefunded(c: Campaign, now: Millis): (d: Campaign)
    ensures d.paymentStatus == Refunded && d.refundedAt == Some(now) && d.status == Cancelled
    ensures d == c.(paymentStatus := d.paymentStatus, refundedAt := d.refundedAt, status := d.status)
  {
    c.(paymentStatus := Refunded, refundedAt := Some(now), status := Cancelled)
  }

  /** The campaign an event's handler saves. */
  function Handle(e: Event, c: Campaign, now: Millis): (d: Campaign)
    ensures e.OtherEvent? ==> d == c
    ensures d.paymentIntentId == c.paymentIntentId && d.snapshot == c.snapshot
    ensures d.refundId == c.refundId && d.transferId == c.transferId
  {
    match e
    case AmountCapturableUpdated(_) => SetFunded(c)
    case PaymentIntentSucceeded(_) => SetCaptured(c, now)
    case PaymentIntentFailed(_) => SetFailed(c)
    case PaymentIntentCanceled(_) => SetCanceled(c)
    case ChargeRefunded(_) => SetRefunded(c, now)
    case OtherEvent => c
  }

  /**
   * No handler undoes anything: each keeps the intent, refund and payout handles, the selection
   * and the price, never reopens a campaign and never revives a cancelled one.
   */
  lemma HandleSettles(e: Event, c: Campaign, now: Millis)
    ensures var d := Handle(e, c, now);
            && Settled(c, d)
            && d.paymentIntentId == c.paymentIntentId && d.refundId == c.refundId && d.transferId == c.transferId
            && d.selectedApplication == c.selectedApplication && d.snapshot == c.snapshot
  {
  }

  /**
   * A redelivered event, at the same or a later instant, leaves the campaign as one delivery at
   * the later instant does. Only the succeeded and refunded handlers stamp a time, and a
   * redelivery moves that stamp to its own instant; every other handler changes nothing more.
   */
  lemma HandleTwiceIsOnce(e: Event, c: Campaign, now1: Millis, now2: Millis)
    ensures var once := Handle(e, c, now1);
            var twice := Handle(e, once, now2);
            && twice == Handle(e, c, now2)
            && (!e.PaymentIntentSucceeded? && !e.ChargeRefunded? ==> twice == once)
            && (e.PaymentIntentSucceeded? ==> twice == once.(capturedAt := Some(now2)))
            && (e.ChargeRefunded? ==> twice == once.(refundedAt := Some(now2)))
  {
  }

  /**
   * Events arriving out of order are not reconciled: a hold-placed event delivered after the
   * succeeded event sets a captured payment back to a hold.
   */
  lemma LateHoldUndoesCapture(intent: Id, c: Campaign, now1: Millis, now2: Millis)
    ensures Handle(AmountCapturableUpdated(intent), Handle(PaymentIntentSucceeded(intent), c, now1), now2).paymentStatus
            == RequiresCapture
  {
  }

  /** The campaigns after the webhook handled event `e`: the campaign of its intent, if found, is rewritten. */
  function Deliver(order: seq<Id>, campaigns: map<Id, Campaign>, e: Event, now: Millis): (cs: map<Id, Campaign>)
    ensures cs.Keys == campaigns.Keys
    ensures forall id :: id in campaigns && cs[id] != campaigns[id] ==>
              EventIntent(e).Some? && FindByIntent(order, campaigns, EventIntent(e).value) == Some(id)
  {
    var intent := EventIntent(e);
    if intent.None? then campaigns
    else
      var found := FindByIntent(order, campaigns, intent.value);
      if found.None? then campaigns
      else campaigns[found.value := Handle(e, campaigns[found.value], now)]
  }

  /**
   * The processor retries deliveries: delivering the same event twice, the second time at the
   * same or a later instant, leaves the store as one delivery at the later instant does,
   * because the handler keeps the intent handle the lookup goes by. Compared with the first
   * delivery, only a capture or refund timestamp can differ.
   */
  lemma {:induction false} DeliverTwiceIsOnce(order: seq<Id>, campaigns: map<Id, Campaign>, e: Event,
                                              now1: Millis, now2: Millis)
    ensures var once := Deliver(order, campaigns, e, now1);
            var twice := Deliver(order, once, e, now2);
            && twice == Deliver(order, campaigns, e, now2)
            && (!e.PaymentIntentSucceeded? && !e.ChargeRefunded? ==> twice == once)
            && twice.Keys == once.Keys
            && (forall id :: id in once ==>
                  twice[id] == once[id].(capturedAt := twice[id].capturedAt, refundedAt := twice[id].refundedAt))
  {
    var once := Deliver(order, campaigns, e, now1);
    var intent := EventIntent(e);
    if intent.Some? {
      var found := FindByIntent(order, campaigns, intent.value);
      if found.Some? {
        var cid := found.value;
        var c := campaigns[cid];
        DeliverFound(order, campaigns, e, now1, cid);
        HandleSettles(e, c, now1);
        FindByIntentStable(order, campaigns, once, intent.value);
        DeliverFound(order, once, e, now2, cid);
        DeliverFound(order, campaigns, e, now2, cid);
        HandleTwiceIsOnce(e, c, now1, now2);
        assert Handle(e, once[cid], now2) == Handle(e, c, now2);
        OverwriteTwice(campaigns, cid, Handle(e, c, now1), Handle(e, c, now2));
        RestampedOnly(campaigns, cid, Handle(e, c, now1), Handle(e, c, now2));
      }
    }
  }

  lemma OverwriteTwice(campaigns: map<Id, Campaign>, cid: Id, d1: Campaign, d2: Campaign)
    ensures campaigns[cid := d1][cid := d2] == campaigns[cid := d2]
  {
  }

  /** An event whose intent's first campaign is `cid` rewrites that campaign and no other. */
  lemma DeliverFound(order: seq<Id>, campaigns: map<Id, Campaign>, e: Event, now: Millis, cid: Id)
    requires EventIntent(e).Some? && FindByIntent(order, campaigns, EventIntent(e).value) == Some(cid)
    ensures Deliver(order, campaigns, e, now) == campaigns[cid := Handle(e, campaigns[cid], now)]
  {
  }

  /** Two rewrites of one campaign that differ only in their timestamps give maps that differ only there. */
  lemma RestampedOnly(campaigns: map<Id, Campaign>, cid: Id, d1: Campaign, d2: Campaign)
    requires d2 == d1.(capturedAt := d2.capturedAt, refundedAt := d2.refundedAt)
    ensures var once := campaigns[cid := d1];
            var twice := campaigns[cid := d2];
            forall id :: id in once ==>
              twice[id] == once[id].(capturedAt := twice[id].capturedAt, refundedAt := twice[id].refundedAt)
  {
  }

  /** A delivered event keeps the store invariant and undoes nothing. */
  lemma {:induction false} DeliverKeepsInv(cs: map<Id, Campaign>, corder: seq<Id>, apps: map<Id, ApplicationModel.Application>,
                                           aorder: seq<Id>, log: seq<Call>, e: Event, now: Millis, cs': map<Id, Campaign>)
    requires Inv(cs, corder, apps, aorder, log)
    requires cs' == Deliver(corder, cs, e, now)
    ensures Inv(cs', corder, apps, aorder, log) && Evolved(cs, cs')
  {
    var intent := EventIntent(e);
    if intent.Some? {
      var found := FindByIntent(corder, cs, intent.value);
      if found.Some? {
        HandledKeepsInv(cs, corder, apps, aorder, log, e, now, found.value);
      }
    }
  }

  lemma {:induction false} HandledKeepsInv(cs: map<Id, Campaign>, corder: seq<Id>, apps: map<Id, ApplicationModel.Application>,
                                           aorder: seq<Id>, log: seq<Call>, e: Event, now: Millis, cid: Id)
    requires Inv(cs, corder, apps, aorder, log) && cid in cs
    ensures var cs' := cs[cid := Handle(e, cs[cid], now)];
            Inv(cs', corder, apps, aorder, log) && Evolved(cs, cs')
  {
    var d := Handle(e, cs[cid], now);
    HandleSettles(e, cs[cid], now);
    RewriteKeepsInv(cs, corder, apps, aorder, log, cid, d);
    assert Evolved(cs, cs[cid := d]);
  }

  /** The event's handler: find the campaign of the event's intent and save what the handler makes of it. */
  method HandleEvent(db: Db, e: Event, now: Millis)
    modifies db
    ensures db.campaigns == Deliver(old(db.campaignOrder), old(db.campaigns), e, now)
    ensures db.applications == old(db.applications) && db.campaignOrder == old(db.campaignOrder)
    ensures db.applicationOrder == old(db.applicationOrder)
    ensures db.deals == old(db.deals) && db.profiles == old(db.profiles) && db.payoutAccounts == old(db.payoutAccounts)
  {
    var intent := EventIntent(e);
    if intent.Some? {
      var found := FindByIntent(db.campaignOrder, db.campaigns, intent.value);
      if found.Some? {
        db.campaigns := db.campaigns[found.value := Handle(e, db.campaigns[found.value], now)];
      }
    }
  }

  /** The reply to an accepted webhook delivery. */
  datatype WebhookReply = Received

  /**
   * The webhook: a delivery without a signature, or whose signature does not verify
   * (`verifyError` is the verifier's message), is refused with a 400; otherwise the event is
   * handled and acknowledged.
   */
  method StripeWebhook(db: Db, hasSignature: bool, verifyError: Option<string>, e: Event, now: Millis)
    returns (r: Result<WebhookReply>)
    requires db.Valid()
    modifies db
    ensures db.Valid()
    ensures !hasSignature ==> r == Err(ApiError(400, "Webhook Error: Missing stripe-signature header"))
    ensures hasSignature && verifyError.Some? ==> r == Err(ApiError(400, "Webhook Error: " + verifyError.value))
    ensures r.Err? ==> db.campaigns == old(db.campaigns)
    ensures hasSignature && verifyError.None? ==>
              r == Ok(Received) && db.campaigns == Deliver(old(db.campaignOrder), old(db.campaigns), e, now)
    ensures db.applications == old(db.applications)
    ensures db.campaignOrder == old(db.campaignOrder) && db.applicationOrder == old(db.applicationOrder)
    ensures Evolved(old(db.campaigns), db.campaigns)
    ensures db.deals == old(db.deals) && db.profiles == old(db.profiles) && db.payoutAccounts == old(db.payoutAccounts)
  {
    if !hasSignature {
      return Err(ApiError(400, "Webhook Error: Missing stripe-signature header"));
    }
    if verifyError.Some? {
      return Err(ApiError(400, "Webhook Error: " + verifyError.value));
    }
    HandleEvent(db, e, now);
    DeliverKeepsInv(old(db.campaigns), db.campaignOrder, db.applications, db.applicationOrder, db.processor.log,
                    e, now, db.campaigns);
    r := Ok(Received);
  }
}
