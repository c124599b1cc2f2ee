/**
 * The reconciliation sweep as values: the four queries it runs, what it does to one document
 * in each pass, and each pass as a fold of that step over the query's result. The sweep's
 * methods are proved against these functions.
 */
module AutomationModel {
  import opened Common
  import opened CampaignModel
  import opened ApplicationModel
  import opened PaymentProcessor
  import opened EscrowKeys
  import opened Db

  /** The four queries of the sweep. */
  datatype Query = DueToStart | ProofOverdue | ReviewOverdue | Releasable

  /** Whether document `id` of state `s` satisfies query `q` at instant `now`. */
  predicate Selects(q: Query, s: State, now: Millis, id: Id)
    ensures Selects(q, s, now, id) && (q.DueToStart? || q.Releasable?) ==> id in s.campaigns
    ensures Selects(q, s, now, id) && (q.ProofOverdue? || q.ReviewOverdue?) ==> id in s.applications
  {
    match q
    case DueToStart =>
      id in s.campaigns && s.campaigns[id].status == Funded && s.campaigns[id].startDate <= now
    case ProofOverdue =>
      && id in s.applications && s.applications[id].status == Selected
      && s.applications[id].proofDueAt.Some? && s.applications[id].proofDueAt.value <= now
      && s.applications[id].proofSubmittedAt.None?
    case ReviewOverdue =>
      && id in s.applications && s.applications[id].status == ProofSubmitted
      && s.applications[id].reviewDueAt.Some? && s.applications[id].reviewDueAt.value <= now
    case Releasable =>
      && id in s.campaigns && s.campaigns[id].status == Active
      && s.campaigns[id].endDate <= now && s.campaigns[id].transferId.None?
  }

  ghost predicate NoDuplicates(ids: seq<Id>) {
    forall i, j :: 0 <= i < j < |ids| ==> ids[i] != ids[j]
  }

  /** `find`: the documents of the collection, in its order, that satisfy the query. */
  function Find(q: Query, order: seq<Id>, s: State, now: Millis): (r: seq<Id>)
    ensures forall id :: id in r <==> id in order && Selects(q, s, now, id)
    ensures forall i :: 0 <= i < |r| ==> Selects(q, s, now, r[i])
    ensures NoDuplicates(order) ==> NoDuplicates(r)
    ensures |r| <= |order|
  {
    if order == [] then []
    else
      var rest := Find(q, order[1..], s, now);
      assert forall id :: id in order[1..] ==> id in order;
      if Selects(q, s, now, order[0]) then [order[0]] + rest
      else rest
  }

  /** A query that no document of the collection satisfies finds nothing. */
  lemma {:induction false} FindNothing(q: Query, order: seq<Id>, s: State, now: Millis)
    requires forall id :: id in order ==> !Selects(q, s, now, id)
    ensures Find(q, order, s, now) == []
  {
    if order != [] {
      assert order[0] in order;
      FindNothing(q, order[1..], s, now);
    }
  }

  /**
   * Pass 1, on one funded campaign whose start has come: it becomes active, and its selected
   * application (if that document exists) gets its proof deadline, one day after the start.
   */
  function Activate(s: State, cid: Id): (t: State)
    requires cid in s.campaigns
    ensures t.log == s.log && t.campaigns.Keys == s.campaigns.Keys && t.applications.Keys == s.applications.Keys
  {
    var c := s.campaigns[cid];
    State(s.campaigns[cid := c.(status := Active)], WithProofDeadline(c, s.applications), s.log)
  }

  /** The applications after campaign `c`'s selected one (if stored) gets its proof deadline. */
  function WithProofDeadline(c: Campaign, apps: map<Id, Application>): (r: map<Id, Application>)
    ensures r.Keys == apps.Keys
  {
    if c.selectedApplication.Some? && c.selectedApplication.value in apps then
      var aid := c.selectedApplication.value;
      apps[aid := apps[aid].(proofDueAt := Some(c.startDate + DayMillis))]
    else apps
  }

  /** Whether pass 2 cancels the hold of campaign `c`. */
  predicate CancelsHold(c: Campaign) {
    c.paymentIntentId.Some? && c.paymentStatus == RequiresCapture
  }

  /** The campaign after pass 2's cancel step. */
  function AfterCancel(c: Campaign): Campaign {
    if CancelsHold(c) then c.(paymentStatus := Canceled, status := Cancelled) else c
  }

  /** Whether pass 2 refunds campaign `c` (after its cancel step): taken, and no refund recorded. */
  predicate RefundsPayment(c: Campaign) {
    c.paymentIntentId.Some? && c.paymentStatus in {Captured, Succeeded} && c.refundId.None?
  }

  /** The campaign and the calls of pass 2 on campaign `cid`; `refund` is the id the processor assigns. */
  function Unwound(cid: Id, c: Campaign, refund: Id, now: Millis): (out: (Campaign, seq<Call>))
    ensures out.0.paymentIntentId == c.paymentIntentId && out.0.transferId == c.transferId
    ensures out.0.selectedApplication == c.selectedApplication && out.0.snapshot == c.snapshot
    ensures c.refundId.Some? ==> out.0.refundId == c.refundId
    ensures forall i :: 0 <= i < |out.1| ==> out.1[i].CancelIntent? || out.1[i].CreateRefund?
  {
    var d := AfterCancel(c);
    var cancel := if CancelsHold(c) then [CancelIntent(c.paymentIntentId.value, SweepKey(SweepCancel, cid))] else [];
    if RefundsPayment(d) then
      (d.(refundId := Some(refund), refundedAt := Some(now), paymentStatus := PaymentStatus.Refunded, status := Cancelled),
       cancel + [CreateRefund(d.paymentIntentId.value, SweepKey(SweepRefund, cid))])
    else (d, cancel)
  }

  /**
   * Pass 2 moves money at most once per campaign: a held payment is cancelled under the sweep's
   * cancel key and then not refunded, because the cancel leaves it canceled; a taken payment
   * with no refund recorded is refunded once under the sweep's refund key; any other campaign
   * is left as it is.
   */
  lemma UnwoundCalls(cid: Id, c: Campaign, refund: Id, now: Millis)
    ensures var out := Unwound(cid, c, refund, now);
            && |out.1| <= 1
            && (CancelsHold(c) ==>
                  && out.1 == [CancelIntent(c.paymentIntentId.value, SweepKey(SweepCancel, cid))]
                  && out.0 == c.(paymentStatus := Canceled, status := Cancelled))
            && (!CancelsHold(c) && RefundsPayment(c) ==>
                  && out.1 == [CreateRefund(c.paymentIntentId.value, SweepKey(SweepRefund, cid))]
                  && out.0 == c.(refundId := Some(refund), refundedAt := Some(now),
                                 paymentStatus := PaymentStatus.Refunded, status := Cancelled))
            && (!CancelsHold(c) && !RefundsPayment(c) ==> out == (c, []))
  {
  }

  /**
   * Pass 2, on one selected application whose proof is overdue: skipped if its campaign is
   * missing; otherwise the campaign's hold is cancelled, or its taken payment refunded once,
   * and the application is marked `FailedProof`.
   */
  function FailProof(s: State, aid: Id, now: Millis, refundFor: Id -> Id): (t: State)
    requires aid in s.applications
    ensures t.campaigns.Keys == s.campaigns.Keys && t.applications.Keys == s.applications.Keys
  {
    var a := s.applications[aid];
    if a.campaign !in s.campaigns then s
    else
      var cid := a.campaign;
      var out := Unwound(cid, s.campaigns[cid], refundFor(cid), now);
      var apps := if a.status != FailedProof then s.applications[aid := a.(status := FailedProof)] else s.applications;
      State(s.campaigns[cid := out.0], apps, s.log + out.1)
  }

  /** Pass 3, on one application whose review is overdue: it is approved now. */
  function AutoApprove(s: State, aid: Id, now: Millis): (t: State)
    requires aid in s.applications
    ensures t.campaigns == s.campaigns && t.log == s.log && t.applications.Keys == s.applications.Keys
  {
    var a := s.applications[aid];
    if a.status != Approved then State(s.campaigns, s.applications[aid := a.(status := Approved, approvedAt := Some(now))], s.log)
    else s
  }

  /** Whether influencer `influencer` has a payout account (a missing or empty id has none). */
  predicate HasAccount(accounts: map<Id, Id>, influencer: Id) {
    influencer in accounts && accounts[influencer] != ""
  }

  /**
   * Whether pass 4 pays out campaign `cid`: its selected application exists and is approved,
   * its influencer has a payout account, and the payment is taken.
   */
  predicate Payable(s: State, cid: Id, accounts: map<Id, Id>)
    requires cid in s.campaigns
    ensures Payable(s, cid, accounts) ==> s.campaigns[cid].paymentStatus != RequiresCapture
    ensures s.campaigns[cid].selectedApplication.None? ==> !Payable(s, cid, accounts)
  {
    var c := s.campaigns[cid];
    && c.selectedApplication.Some? && c.selectedApplication.value in s.applications
    && s.applications[c.selectedApplication.value].status == Approved
    && HasAccount(accounts, s.applications[c.selectedApplication.value].influencer)
    && c.paymentStatus in {Captured, Succeeded}
  }

  /** The payout amount in cents: the influencer's part, or 0 when the campaign has no price. */
  function PayoutCents(c: Campaign): (n: int)
    ensures c.snapshot.None? ==> n == 0
    ensures c.snapshot.Some? ==>
              n as real - 1.0 / 2.0 <= c.snapshot.value.influencerAmount * 100.0 < n as real + 1.0 / 2.0
  {
    if c.snapshot.Some? then JsRound(c.snapshot.value.influencerAmount * 100.0) else 0
  }

  /**
   * Pass 4, on one active campaign that has ended and has no payout: if payable, the
   * influencer's part is transferred under the sweep's transfer key, the campaign completes
   * and its application is released. Also says whether a transfer was made.
   */
  function PayOut(s: State, cid: Id, now: Millis, accounts: map<Id, Id>, transferFor: Id -> Id): (out: (State, bool))
    requires cid in s.campaigns
    ensures out.0.campaigns.Keys == s.campaigns.Keys && out.0.applications.Keys == s.applications.Keys
    ensures out.1 == Payable(s, cid, accounts)
    ensures !out.1 ==> out.0 == s
  {
    if !Payable(s, cid, accounts) then (s, false)
    else
      var c := s.campaigns[cid];
      var aid := c.selectedApplication.value;
      var a := s.applications[aid];
      var call := CreateTransfer(PayoutCents(c), c.currency, accounts[a.influencer], SweepKey(SweepTransfer, cid));
      var apps := if a.status != Released then s.applications[aid := a.(status := Released)] else s.applications;
      (State(s.campaigns[cid := c.(transferId := Some(transferFor(cid)), paidOutAt := Some(now), status := Completed)],
             apps, s.log + [call]),
       true)
  }

  /** Pass 1 over `batch`. */
  function ActivateAll(s: State, batch: seq<Id>): (t: State)
    requires forall i :: 0 <= i < |batch| ==> batch[i] in s.campaigns
    ensures t.campaigns.Keys == s.campaigns.Keys && t.applications.Keys == s.applications.Keys
    decreases |batch|
  {
    if batch == [] then s
    else Activate(ActivateAll(s, batch[..|batch| - 1]), batch[|batch| - 1])
  }

  /** Pass 2 over `batch`. */
  function FailAll(s: State, batch: seq<Id>, now: Millis, refundFor: Id -> Id): (t: State)
    requires forall i :: 0 <= i < |batch| ==> batch[i] in s.applications
    ensures t.campaigns.Keys == s.campaigns.Keys && t.applications.Keys == s.applications.Keys
    decreases |batch|
  {
    if batch == [] then s
    else FailProof(FailAll(s, batch[..|batch| - 1], now, refundFor), batch[|batch| - 1], now, refundFor)
  }

  /** Pass 3 over `batch`. */
  function ApproveAll(s: State, batch: seq<Id>, now: Millis): (t: State)
    requires forall i :: 0 <= i < |batch| ==> batch[i] in s.applications
    ensures t.campaigns == s.campaigns && t.log == s.log && t.applications.Keys == s.applications.Keys
    decreases |batch|
  {
    if batch == [] then s
    else AutoApprove(ApproveAll(s, batch[..|batch| - 1], now), batch[|batch| - 1], now)
  }

  /** Pass 4 over `batch`, with the number of transfers made. */
  function PayAll(s: State, batch: seq<Id>, now: Millis, accounts: map<Id, Id>, transferFor: Id -> Id): (out: (State, nat))
    requires forall i :: 0 <= i < |batch| ==> batch[i] in s.campaigns
    ensures out.0.campaigns.Keys == s.campaigns.Keys && out.0.applications.Keys == s.applications.Keys
    ensures out.1 <= |batch|
    decreases |batch|
  {
    if batch == [] then (s, 0)
    else
      var before := PayAll(s, batch[..|batch| - 1], now, accounts, transferFor);
      var step := PayOut(before.0, batch[|batch| - 1], now, accounts, transferFor);
      (step.0, before.1 + (if step.1 then 1 else 0))
  }

  /** Pass 1 over one more campaign of the batch. */
  lemma ActivateAllSnoc(s: State, batch: seq<Id>, i: int)
    requires 0 <= i < |batch| && forall k :: 0 <= k < |batch| ==> batch[k] in s.campaigns
    ensures ActivateAll(s, batch[..i + 1]) == Activate(ActivateAll(s, batch[..i]), batch[i])
  {
    assert batch[..i + 1][..i] == batch[..i];
  }

  /** Pass 3 over one more application of the batch. */
  lemma ApproveAllSnoc(s: State, batch: seq<Id>, i: int, now: Millis)
    requires 0 <= i < |batch| && forall k :: 0 <= k < |batch| ==> batch[k] in s.applications
    ensures ApproveAll(s, batch[..i + 1], now) == AutoApprove(ApproveAll(s, batch[..i], now), batch[i], now)
  {
    assert batch[..i + 1][..i] == batch[..i];
  }

  /** Pass 2 over one more application of the batch. */
  lemma FailAllSnoc(s: State, batch: seq<Id>, i: int, now: Millis, refundFor: Id -> Id)
    requires 0 <= i < |batch| && forall k :: 0 <= k < |batch| ==> batch[k] in s.applications
    ensures FailAll(s, batch[..i + 1], now, refundFor) == FailProof(FailAll(s, batch[..i], now, refundFor), batch[i], now, refundFor)
  {
    assert batch[..i + 1][..i] == batch[..i];
  }

  /** Pass 4 over one more campaign of the batch. */
  lemma PayAllSnoc(s: State, batch: seq<Id>, i: int, now: Millis, accounts: map<Id, Id>, transferFor: Id -> Id)
    requires 0 <= i < |batch| && forall k :: 0 <= k < |batch| ==> batch[k] in s.campaigns
    ensures var before := PayAll(s, batch[..i], now, accounts, transferFor);
            var step := PayOut(before.0, batch[i], now, accounts, transferFor);
            PayAll(s, batch[..i + 1], now, accounts, transferFor) == (step.0, before.1 + if step.1 then 1 else 0)
  {
    assert batch[..i + 1][..i] == batch[..i];
  }

  /** One more payout, taken from the state and count pass 4 has reached, gives the next state and count. */
  lemma PayAllNext(s: State, batch: seq<Id>, i: int, now: Millis, accounts: map<Id, Id>, transferFor: Id -> Id,
                   before: State, count: nat, after: State, paid: bool)
    requires 0 <= i < |batch| && forall k :: 0 <= k < |batch| ==> batch[k] in s.campaigns
    requires (before, count) == PayAll(s, batch[..i], now, accounts, transferFor)
    requires (after, paid) == PayOut(before, batch[i], now, accounts, transferFor)
    ensures (after, count + if paid then 1 else 0) == PayAll(s, batch[..i + 1], now, accounts, transferFor)
  {
    PayAllSnoc(s, batch, i, now, accounts, transferFor);
  }

  /** What the sweep reports: the sizes of the first three batches and the transfers made. */
  datatype Summary = Summary(activated: nat, failedProof: nat, autoApproved: nat, transferred: nat)

  /** The processor's ids for refunds and transfers the sweep creates, by campaign. */
  datatype SweepAnswers = SweepAnswers(refundFor: Id -> Id, transferFor: Id -> Id)

  /** The whole sweep at instant `now`: each pass queries the state the previous one left. */
  function Sweep(s: State, corder: seq<Id>, aorder: seq<Id>, now: Millis, accounts: map<Id, Id>,
                 ans: SweepAnswers): (out: (State, Summary))
    ensures out.0.campaigns.Keys == s.campaigns.Keys && out.0.applications.Keys == s.applications.Keys
    ensures out.1.activated <= |corder| && out.1.transferred <= |corder|
    ensures out.1.failedProof <= |aorder| && out.1.autoApproved <= |aorder|
  {
    var b1 := Find(DueToStart, corder, s, now);
    var s1 := ActivateAll(s, b1);
    var b2 := Find(ProofOverdue, aorder, s1, now);
    var s2 := FailAll(s1, b2, now, ans.refundFor);
    var b3 := Find(ReviewOverdue, aorder, s2, now);
    var s3 := ApproveAll(s2, b3, now);
    var b4 := Find(Releasable, corder, s3, now);
    var paid := PayAll(s3, b4, now, accounts, ans.transferFor);
    (paid.0, Summary(|b1|, |b2|, |b3|, paid.1))
  }

  // ---- Each step keeps the invariant ----

  /** Activating a funded campaign keeps the invariant. */
  lemma {:induction false} ActivateKeepsInv(s: State, corder: seq<Id>, aorder: seq<Id>, cid: Id, now: Millis)
    requires InvState(s, corder, aorder) && Selects(DueToStart, s, now, cid)
    ensures InvState(Activate(s, cid), corder, aorder)
  {
    ActivatedKeepsInv(s.campaigns, corder, s.applications, aorder, s.log, cid);
  }

  lemma {:induction false} ActivatedKeepsInv(cs: map<Id, Campaign>, corder: seq<Id>, apps: map<Id, Application>,
                                             aorder: seq<Id>, log: seq<Call>, cid: Id)
    requires Inv(cs, corder, apps, aorder, log) && cid in cs && cs[cid].status == Funded
    ensures Inv(cs[cid := cs[cid].(status := Active)], corder, WithProofDeadline(cs[cid], apps), aorder, log)
  {
    var c := cs[cid];
    RewriteKeepsInv(cs, corder, apps, aorder, log, cid, c.(status := Active));
    DeadlineKeepsInv(cs[cid := c.(status := Active)], corder, apps, aorder, log, c);
  }

  lemma {:induction false} DeadlineKeepsInv(cs: map<Id, Campaign>, corder: seq<Id>, apps: map<Id, Application>,
                                            aorder: seq<Id>, log: seq<Call>, c: Campaign)
    requires Inv(cs, corder, apps, aorder, log)
    ensures Inv(cs, corder, WithProofDeadline(c, apps), aorder, log)
  {
    if c.selectedApplication.Some? && c.selectedApplication.value in apps {
      var aid := c.selectedApplication.value;
      var b := apps[aid].(proofDueAt := Some(c.startDate + DayMillis));
      assert WithProofDeadline(c, apps) == apps[aid := b];
      RewriteAppKeepsInv(cs, corder, apps, aorder, log, aid, b, apps[aid := b]);
    } else {
      assert WithProofDeadline(c, apps) == apps;
    }
  }

  /** Pass 2's cancel-or-refund of one campaign keeps the invariant on campaigns and the log. */
  lemma {:induction false} UnwoundKeepsInv(cs: map<Id, Campaign>, corder: seq<Id>, apps: map<Id, Application>,
                                           aorder: seq<Id>, log: seq<Call>, cid: Id, refund: Id, now: Millis)
    requires Inv(cs, corder, apps, aorder, log) && cid in cs
    ensures var out := Unwound(cid, cs[cid], refund, now);
            Inv(cs[cid := out.0], corder, apps, aorder, log + out.1)
  {
    var c := cs[cid];
    var out := Unwound(cid, c, refund, now);
    if CancelsHold(c) {
      QuietRewriteKeepsInv(cs, corder, apps, aorder, log, cid, out.0, out.1, cs[cid := out.0], log + out.1);
    } else if RefundsPayment(c) {
      assert out.1 == [out.1[0]];
      assert Settled(c, out.0);
      RewriteKeepsShape(cs, corder, apps, aorder, cid, out.0);
      FirstMoveKeepsMoney(cs, log, cs[cid := out.0], out.1[0], cid);
    } else {
      assert cs[cid := out.0] == cs && log + out.1 == log;
    }
  }

  /** Failing an overdue proof keeps the invariant. */
  lemma {:induction false} FailProofKeepsInv(s: State, corder: seq<Id>, aorder: seq<Id>, aid: Id, now: Millis,
                                             refundFor: Id -> Id)
    requires InvState(s, corder, aorder) && Selects(ProofOverdue, s, now, aid)
    ensures InvState(FailProof(s, aid, now, refundFor), corder, aorder)
  {
    var a := s.applications[aid];
    var cid := a.campaign;
    var out := Unwound(cid, s.campaigns[cid], refundFor(cid), now);
    UnwoundKeepsInv(s.campaigns, corder, s.applications, aorder, s.log, cid, refundFor(cid), now);
    var b := a.(status := FailedProof);
    RewriteAppKeepsInv(s.campaigns[cid := out.0], corder, s.applications, aorder, s.log + out.1,
                       aid, b, s.applications[aid := b]);
  }

  /** Approving an overdue review keeps the invariant. */
  lemma {:induction false} AutoApproveKeepsInv(s: State, corder: seq<Id>, aorder: seq<Id>, aid: Id, now: Millis)
    requires InvState(s, corder, aorder) && Selects(ReviewOverdue, s, now, aid)
    ensures InvState(AutoApprove(s, aid, now), corder, aorder)
  {
    var b := s.applications[aid].(status := Approved, approvedAt := Some(now));
    RewriteAppKeepsInv(s.campaigns, corder, s.applications, aorder, s.log, aid, b, s.applications[aid := b]);
  }

  /** Paying out an ended campaign keeps the invariant: its one transfer is recorded on it. */
  lemma {:induction false} PayOutKeepsInv(s: State, corder: seq<Id>, aorder: seq<Id>, cid: Id, now: Millis,
                                          accounts: map<Id, Id>, transferFor: Id -> Id)
    requires InvState(s, corder, aorder) && Selects(Releasable, s, now, cid)
    ensures InvState(PayOut(s, cid, now, accounts, transferFor).0, corder, aorder)
  {
    if Payable(s, cid, accounts) {
      var c := s.campaigns[cid];
      var aid := c.selectedApplication.value;
      var a := s.applications[aid];
      var d := c.(transferId := Some(transferFor(cid)), paidOutAt := Some(now), status := Completed);
      var call := CreateTransfer(PayoutCents(c), c.currency, accounts[a.influencer], SweepKey(SweepTransfer, cid));
      PaidKeepsInv(s.campaigns, corder, s.applications, aorder, s.log, cid, d, call);
      var b := a.(status := Released);
      RewriteAppKeepsInv(s.campaigns[cid := d], corder, s.applications, aorder, s.log + [call], aid, b, s.applications[aid := b]);
      assert PayOut(s, cid, now, accounts, transferFor).0 == State(s.campaigns[cid := d], s.applications[aid := b], s.log + [call]);
    } else {
      assert PayOut(s, cid, now, accounts, transferFor).0 == s;
    }
  }

  /** Recording a campaign's first payout together with its request keeps the invariant. */
  lemma {:induction false} PaidKeepsInv(cs: map<Id, Campaign>, corder: seq<Id>, apps: map<Id, Application>,
                                        aorder: seq<Id>, log: seq<Call>, cid: Id, d: Campaign, call: Call)
    requires Inv(cs, corder, apps, aorder, log) && cid in cs && cs[cid].status == Active && cs[cid].transferId.None?
    requires d == cs[cid].(transferId := d.transferId, paidOutAt := d.paidOutAt, status := Completed)
    requires d.transferId.Some? && TransferFor(call, cid)
    ensures Inv(cs[cid := d], corder, apps, aorder, log + [call])
  {
    RewriteKeepsShape(cs, corder, apps, aorder, cid, d);
    FirstMoveKeepsMoney(cs, log, cs[cid := d], call, cid);
  }

  // ---- What a step leaves alone ----

  /** Every document of `ids` satisfies query `q`. */
  ghost predicate AllSelected(q: Query, s: State, now: Millis, ids: seq<Id>) {
    forall id :: id in ids ==> Selects(q, s, now, id)
  }

  /** In a list without duplicates, an element does not reappear after its position. */
  lemma {:induction false} NotLater(ids: seq<Id>, i: int)
    requires NoDuplicates(ids) && 0 <= i < |ids|
    ensures ids[i] !in ids[i + 1..]
  {
    var later := ids[i + 1..];
    assert forall k :: 0 <= k < |later| ==> later[k] == ids[i + 1 + k] && later[k] != ids[i];
  }

  /** The head of a batch's unprocessed part is selected, and so is the rest. */
  lemma AllSelectedTail(q: Query, s: State, now: Millis, ids: seq<Id>, i: int)
    requires 0 <= i < |ids| && AllSelected(q, s, now, ids[i..])
    ensures Selects(q, s, now, ids[i]) && AllSelected(q, s, now, ids[i + 1..])
  {
    assert ids[i..][0] == ids[i];
    assert forall id :: id in ids[i + 1..] ==> id in ids[i..];
  }

  /** Activating one campaign leaves the other due campaigns due. */
  lemma {:induction false} ActivateKeepsOthers(s: State, cid: Id, now: Millis, ids: seq<Id>)
    requires cid in s.campaigns && cid !in ids && AllSelected(DueToStart, s, now, ids)
    ensures AllSelected(DueToStart, Activate(s, cid), now, ids)
  {
  }

  /** Failing one overdue proof leaves the other overdue proofs overdue. */
  lemma {:induction false} FailProofKeepsOthers(s: State, aid: Id, now: Millis, refundFor: Id -> Id, ids: seq<Id>)
    requires aid in s.applications && aid !in ids && AllSelected(ProofOverdue, s, now, ids)
    ensures AllSelected(ProofOverdue, FailProof(s, aid, now, refundFor), now, ids)
  {
  }

  /** Approving one overdue review leaves the other overdue reviews overdue. */
  lemma {:induction false} AutoApproveKeepsOthers(s: State, aid: Id, now: Millis, ids: seq<Id>)
    requires aid in s.applications && aid !in ids && AllSelected(ReviewOverdue, s, now, ids)
    ensures AllSelected(ReviewOverdue, AutoApprove(s, aid, now), now, ids)
  {
  }

  /** Paying out one campaign leaves the other ended campaigns releasable. */
  lemma {:induction false} PayOutKeepsOthers(s: State, cid: Id, now: Millis, accounts: map<Id, Id>,
                                             transferFor: Id -> Id, ids: seq<Id>)
    requires cid in s.campaigns && cid !in ids && AllSelected(Releasable, s, now, ids)
    ensures AllSelected(Releasable, PayOut(s, cid, now, accounts, transferFor).0, now, ids)
  {
  }

  // ---- Each pass keeps whatever each of its steps keeps ----

  /** Pass 1 keeps any property `P` that each of its steps keeps. */
  lemma {:induction false} ActivateAllKeeps(P: State -> bool, s: State, batch: seq<Id>, now: Millis, k: nat)
    requires P(s) && NoDuplicates(batch) && AllSelected(DueToStart, s, now, batch)
    requires forall i :: 0 <= i < |batch| ==> batch[i] in s.campaigns
    requires forall x: State, cid: Id {:trigger P(Activate(x, cid))} :: P(x) && Selects(DueToStart, x, now, cid) ==> P(Activate(x, cid))
    requires k <= |batch|
    ensures P(ActivateAll(s, batch[..k])) && AllSelected(DueToStart, ActivateAll(s, batch[..k]), now, batch[k..])
  {
    if k == 0 {
      assert batch[..0] == [] && batch[0..] == batch;
    } else {
      ActivateAllKeeps(P, s, batch, now, k - 1);
      ActivateAllKeepsStep(P, s, batch, now, k - 1);
    }
  }

  /** One step of pass 1 keeps `P` and leaves the rest of the batch due. */
  lemma {:induction false} ActivateAllKeepsStep(P: State -> bool, s: State, batch: seq<Id>, now: Millis, i: nat)
    requires NoDuplicates(batch) && i < |batch|
    requires forall j :: 0 <= j < |batch| ==> batch[j] in s.campaigns
    requires forall x: State, cid: Id {:trigger P(Activate(x, cid))} :: P(x) && Selects(DueToStart, x, now, cid) ==> P(Activate(x, cid))
    requires P(ActivateAll(s, batch[..i])) && AllSelected(DueToStart, ActivateAll(s, batch[..i]), now, batch[i..])
    ensures P(ActivateAll(s, batch[..i + 1])) && AllSelected(DueToStart, ActivateAll(s, batch[..i + 1]), now, batch[i + 1..])
  {
    var before := ActivateAll(s, batch[..i]);
    ActivateAllSnoc(s, batch, i);
    AllSelectedTail(DueToStart, before, now, batch, i);
    assert P(Activate(before, batch[i]));
    NotLater(batch, i);
    ActivateKeepsOthers(before, batch[i], now, batch[i + 1..]);
  }

  /** Pass 2 keeps any property `P` that each of its steps keeps. */
  lemma {:induction false} FailAllKeeps(P: State -> bool, s: State, batch: seq<Id>, now: Millis, refundFor: Id -> Id, k: nat)
    requires P(s) && NoDuplicates(batch) && AllSelected(ProofOverdue, s, now, batch)
    requires forall i :: 0 <= i < |batch| ==> batch[i] in s.applications
    requires forall x: State, aid: Id {:trigger P(FailProof(x, aid, now, refundFor))} :: P(x) && Selects(ProofOverdue, x, now, aid) ==> P(FailProof(x, aid, now, refundFor))
    requires k <= |batch|
    ensures P(FailAll(s, batch[..k], now, refundFor))
    ensures AllSelected(ProofOverdue, FailAll(s, batch[..k], now, refundFor), now, batch[k..])
  {
    if k == 0 {
      assert batch[..0] == [] && batch[0..] == batch;
    } else {
      FailAllKeeps(P, s, batch, now, refundFor, k - 1);
      FailAllKeepsStep(P, s, batch, now, refundFor, k - 1);
    }
  }

  /** One step of pass 2 keeps `P` and leaves the rest of the batch overdue. */
  lemma {:induction false} FailAllKeepsStep(P: State -> bool, s: State, batch: seq<Id>, now: Millis, refundFor: Id -> Id, i: nat)
    requires NoDuplicates(batch) && i < |batch|
    requires forall j :: 0 <= j < |batch| ==> batch[j] in s.applications
    requires forall x: State, aid: Id {:trigger P(FailProof(x, aid, now, refundFor))} :: P(x) && Selects(ProofOverdue, x, now, aid) ==> P(FailProof(x, aid, now, refundFor))
    requires P(FailAll(s, batch[..i], now, refundFor))
    requires AllSelected(ProofOverdue, FailAll(s, batch[..i], now, refundFor), now, batch[i..])
    ensures P(FailAll(s, batch[..i + 1], now, refundFor))
    ensures AllSelected(ProofOverdue, FailAll(s, batch[..i + 1], now, refundFor), now, batch[i + 1..])
  {
    var before := FailAll(s, batch[..i], now, refundFor);
    FailAllSnoc(s, batch, i, now, refundFor);
    AllSelectedTail(ProofOverdue, before, now, batch, i);
    assert P(FailProof(before, batch[i], now, refundFor));
    NotLater(batch, i);
    FailProofKeepsOthers(before, batch[i], now, refundFor, batch[i + 1..]);
  }

  /** Pass 3 keeps any property `P` that each of its steps keeps. */
  lemma {:induction false} ApproveAllKeeps(P: State -> bool, s: State, batch: seq<Id>, now: Millis, k: nat)
    requires P(s) && NoDuplicates(batch) && AllSelected(ReviewOverdue, s, now, batch)
    requires forall i :: 0 <= i < |batch| ==> batch[i] in s.applications
    requires forall x: State, aid: Id {:trigger P(AutoApprove(x, aid, now))} :: P(x) && Selects(ReviewOverdue, x, now, aid) ==> P(AutoApprove(x, aid, now))
    requires k <= |batch|
    ensures P(ApproveAll(s, batch[..k], now)) && AllSelected(ReviewOverdue, ApproveAll(s, batch[..k], now), now, batch[k..])
  {
    if k == 0 {
      assert batch[..0] == [] && batch[0..] == batch;
    } else {
      ApproveAllKeeps(P, s, batch, now, k - 1);
      ApproveAllKeepsStep(P, s, batch, now, k - 1);
    }
  }

  /** One step of pass 3 keeps `P` and leaves the rest of the batch overdue. */
  lemma {:induction false} ApproveAllKeepsStep(P: State -> bool, s: State, batch: seq<Id>, now: Millis, i: nat)
    requires NoDuplicates(batch) && i < |batch|
    requires forall j :: 0 <= j < |batch| ==> batch[j] in s.applications
    requires forall x: State, aid: Id {:trigger P(AutoApprove(x, aid, now))} :: P(x) && Selects(ReviewOverdue, x, now, aid) ==> P(AutoApprove(x, aid, now))
    requires P(ApproveAll(s, batch[..i], now)) && AllSelected(ReviewOverdue, ApproveAll(s, batch[..i], now), now, batch[i..])
    ensures P(ApproveAll(s, batch[..i + 1], now)) && AllSelected(ReviewOverdue, ApproveAll(s, batch[..i + 1], now), now, batch[i + 1..])
  {
    var before := ApproveAll(s, batch[..i], now);
    ApproveAllSnoc(s, batch, i, now);
    AllSelectedTail(ReviewOverdue, before, now, batch, i);
    assert P(AutoApprove(before, batch[i], now));
    NotLater(batch, i);
    AutoApproveKeepsOthers(before, batch[i], now, batch[i + 1..]);
  }

  /** Pass 4 keeps any property `P` that each of its steps keeps. */
  lemma {:induction false} PayAllKeeps(P: State -> bool, s: State, batch: seq<Id>, now: Millis, accounts: map<Id, Id>,
                                       transferFor: Id -> Id, k: nat)
    requires P(s) && NoDuplicates(batch) && AllSelected(Releasable, s, now, batch)
    requires forall i :: 0 <= i < |batch| ==> batch[i] in s.campaigns
    requires forall x: State, cid: Id {:trigger P(PayOut(x, cid, now, accounts, transferFor).0)} :: P(x) && Selects(Releasable, x, now, cid) ==> P(PayOut(x, cid, now, accounts, transferFor).0)
    requires k <= |batch|
    ensures P(PayAll(s, batch[..k], now, accounts, transferFor).0)
    ensures AllSelected(Releasable, PayAll(s, batch[..k], now, accounts, transferFor).0, now, batch[k..])
  {
    if k == 0 {
      assert batch[..0] == [] && batch[0..] == batch;
    } else {
      PayAllKeeps(P, s, batch, now, accounts, transferFor, k - 1);
      PayAllKeepsStep(P, s, batch, now, accounts, transferFor, k - 1);
    }
  }

  /** One step of pass 4 keeps `P` and leaves the rest of the batch releasable. */
  lemma {:induction false} PayAllKeepsStep(P: State -> bool, s: State, batch: seq<Id>, now: Millis, accounts: map<Id, Id>,
                                           transferFor: Id -> Id, i: nat)
    requires NoDuplicates(batch) && i < |batch|
    requires forall j :: 0 <= j < |batch| ==> batch[j] in s.campaigns
    requires forall x: State, cid: Id {:trigger P(PayOut(x, cid, now, accounts, transferFor).0)} :: P(x) && Selects(Releasable, x, now, cid) ==> P(PayOut(x, cid, now, accounts, transferFor).0)
    requires P(PayAll(s, batch[..i], now, accounts, transferFor).0)
    requires AllSelected(Releasable, PayAll(s, batch[..i], now, accounts, transferFor).0, now, batch[i..])
    ensures P(PayAll(s, batch[..i + 1], now, accounts, transferFor).0)
    ensures AllSelected(Releasable, PayAll(s, batch[..i + 1], now, accounts, transferFor).0, now, batch[i + 1..])
  {
    var before := PayAll(s, batch[..i], now, accounts, transferFor).0;
    PayAllSnoc(s, batch, i, now, accounts, transferFor);
    AllSelectedTail(Releasable, before, now, batch, i);
    assert P(PayOut(before, batch[i], now, accounts, transferFor).0);
    NotLater(batch, i);
    PayOutKeepsOthers(before, batch[i], now, accounts, transferFor, batch[i + 1..]);
  }

  /** Pass 1 keeps every property that each of its steps keeps. */
  lemma {:induction false} ActivatePassKeeps(P: State -> bool, s: State, corder: seq<Id>, now: Millis)
    requires P(s) && NoDuplicates(corder)
    requires forall x: State, cid: Id {:trigger P(Activate(x, cid))} :: P(x) && Selects(DueToStart, x, now, cid) ==> P(Activate(x, cid))
    ensures P(ActivateAll(s, Find(DueToStart, corder, s, now)))
  {
    var b := Find(DueToStart, corder, s, now);
    ActivateAllKeeps(P, s, b, now, |b|);
    assert b[..|b|] == b;
  }

  /** Pass 2 keeps every property that each of its steps keeps. */
  lemma {:induction false} FailPassKeeps(P: State -> bool, s: State, aorder: seq<Id>, now: Millis, refundFor: Id -> Id)
    requires P(s) && NoDuplicates(aorder)
    requires forall x: State, aid: Id {:trigger P(FailProof(x, aid, now, refundFor))} :: P(x) && Selects(ProofOverdue, x, now, aid) ==> P(FailProof(x, aid, now, refundFor))
    ensures P(FailAll(s, Find(ProofOverdue, aorder, s, now), now, refundFor))
  {
    var b := Find(ProofOverdue, aorder, s, now);
    FailAllKeeps(P, s, b, now, refundFor, |b|);
    assert b[..|b|] == b;
  }

  /** Pass 3 keeps every property that each of its steps keeps. */
  lemma {:induction false} ApprovePassKeeps(P: State -> bool, s: State, aorder: seq<Id>, now: Millis)
    requires P(s) && NoDuplicates(aorder)
    requires forall x: State, aid: Id {:trigger P(AutoApprove(x, aid, now))} :: P(x) && Selects(ReviewOverdue, x, now, aid) ==> P(AutoApprove(x, aid, now))
    ensures P(ApproveAll(s, Find(ReviewOverdue, aorder, s, now), now))
  {
    var b := Find(ReviewOverdue, aorder, s, now);
    ApproveAllKeeps(P, s, b, now, |b|);
    assert b[..|b|] == b;
  }

  /** Pass 4 keeps every property that each of its steps keeps. */
  lemma {:induction false} PayPassKeeps(P: State -> bool, s: State, corder: seq<Id>, now: Millis, accounts: map<Id, Id>,
                                        transferFor: Id -> Id)
    requires P(s) && NoDuplicates(corder)
    requires forall x: State, cid: Id {:trigger P(PayOut(x, cid, now, accounts, transferFor).0)} :: P(x) && Selects(Releasable, x, now, cid) ==> P(PayOut(x, cid, now, accounts, transferFor).0)
    ensures P(PayAll(s, Find(Releasable, corder, s, now), now, accounts, transferFor).0)
  {
    var b := Find(Releasable, corder, s, now);
    PayAllKeeps(P, s, b, now, accounts, transferFor, |b|);
    assert b[..|b|] == b;
  }

  /** The whole sweep keeps any property `P` that every step of every pass keeps. */
  lemma {:induction false} SweepKeeps(P: State -> bool, s: State, corder: seq<Id>, aorder: seq<Id>, now: Millis,
                                      accounts: map<Id, Id>, ans: SweepAnswers)
    requires P(s) && NoDuplicates(corder) && NoDuplicates(aorder)
    requires forall x: State, cid: Id {:trigger P(Activate(x, cid))} :: P(x) && Selects(DueToStart, x, now, cid) ==> P(Activate(x, cid))
    requires forall x: State, aid: Id {:trigger P(FailProof(x, aid, now, ans.refundFor))} :: P(x) && Selects(ProofOverdue, x, now, aid) ==> P(FailProof(x, aid, now, ans.refundFor))
    requires forall x: State, aid: Id {:trigger P(AutoApprove(x, aid, now))} :: P(x) && Selects(ReviewOverdue, x, now, aid) ==> P(AutoApprove(x, aid, now))
    requires forall x: State, cid: Id {:trigger P(PayOut(x, cid, now, accounts, ans.transferFor).0)} ::
               P(x) && Selects(Releasable, x, now, cid) ==> P(PayOut(x, cid, now, accounts, ans.transferFor).0)
    ensures P(Sweep(s, corder, aorder, now, accounts, ans).0)
  {
    ActivatePassKeeps(P, s, corder, now);
    var s1 := ActivateAll(s, Find(DueToStart, corder, s, now));
    FailPassKeeps(P, s1, aorder, now, ans.refundFor);
    var s2 := FailAll(s1, Find(ProofOverdue, aorder, s1, now), now, ans.refundFor);
    ApprovePassKeeps(P, s2, aorder, now);
    var s3 := ApproveAll(s2, Find(ReviewOverdue, aorder, s2, now), now);
    PayPassKeeps(P, s3, corder, now, accounts, ans.transferFor);
  }

  /**
   * The sweep keeps the invariant: collections and orders agree, selections stay consistent,
   * and no campaign is refunded or paid out twice.
   */
  lemma {:induction false} SweepKeepsInv(s: State, corder: seq<Id>, aorder: seq<Id>, now: Millis,
                                         accounts: map<Id, Id>, ans: SweepAnswers)
    requires InvState(s, corder, aorder)
    ensures InvState(Sweep(s, corder, aorder, now, accounts, ans).0, corder, aorder)
  {
    ActivateStepsKeepInv(corder, aorder, now);
    FailStepsKeepInv(corder, aorder, now, ans.refundFor);
    ApproveStepsKeepInv(corder, aorder, now);
    PayStepsKeepInv(corder, aorder, now, accounts, ans.transferFor);
    SweepKeeps(x => InvState(x, corder, aorder), s, corder, aorder, now, accounts, ans);
  }

  /** Every activation of pass 1 keeps the invariant. */
  lemma ActivateStepsKeepInv(corder: seq<Id>, aorder: seq<Id>, now: Millis)
    ensures forall x: State, cid: Id :: InvState(x, corder, aorder) && Selects(DueToStart, x, now, cid) ==>
              InvState(Activate(x, cid), corder, aorder)
  {
    forall x: State, cid: Id | InvState(x, corder, aorder) && Selects(DueToStart, x, now, cid)
      ensures InvState(Activate(x, cid), corder, aorder)
    {
      ActivateKeepsInv(x, corder, aorder, cid, now);
    }
  }

  /** Every failed proof of pass 2 keeps the invariant. */
  lemma FailStepsKeepInv(corder: seq<Id>, aorder: seq<Id>, now: Millis, refundFor: Id -> Id)
    ensures forall x: State, aid: Id :: InvState(x, corder, aorder) && Selects(ProofOverdue, x, now, aid) ==>
              InvState(FailProof(x, aid, now, refundFor), corder, aorder)
  {
    forall x: State, aid: Id | InvState(x, corder, aorder) && Selects(ProofOverdue, x, now, aid)
      ensures InvState(FailProof(x, aid, now, refundFor), corder, aorder)
    {
      FailProofKeepsInv(x, corder, aorder, aid, now, refundFor);
    }
  }

  /** Every automatic approval of pass 3 keeps the invariant. */
  lemma ApproveStepsKeepInv(corder: seq<Id>, aorder: seq<Id>, now: Millis)
    ensures forall x: State, aid: Id :: InvState(x, corder, aorder) && Selects(ReviewOverdue, x, now, aid) ==>
              InvState(AutoApprove(x, aid, now), corder, aorder)
  {
    forall x: State, aid: Id | InvState(x, corder, aorder) && Selects(ReviewOverdue, x, now, aid)
      ensures InvState(AutoApprove(x, aid, now), corder, aorder)
    {
      AutoApproveKeepsInv(x, corder, aorder, aid, now);
    }
  }

  /** Every payout step of pass 4 keeps the invariant. */
  lemma PayStepsKeepInv(corder: seq<Id>, aorder: seq<Id>, now: Millis, accounts: map<Id, Id>, transferFor: Id -> Id)
    ensures forall x: State, cid: Id :: InvState(x, corder, aorder) && Selects(Releasable, x, now, cid) ==>
              InvState(PayOut(x, cid, now, accounts, transferFor).0, corder, aorder)
  {
    forall x: State, cid: Id | InvState(x, corder, aorder) && Selects(Releasable, x, now, cid)
      ensures InvState(PayOut(x, cid, now, accounts, transferFor).0, corder, aorder)
    {
      PayOutKeepsInv(x, corder, aorder, cid, now, accounts, transferFor);
    }
  }

  // ---- A second sweep at the same instant does nothing ----

  /** An activated campaign is no longer due, and activation makes no other campaign due. */
  lemma {:induction false} ActivateSelects(s: State, cid: Id, now: Millis)
    requires cid in s.campaigns
    ensures forall y :: Selects(DueToStart, Activate(s, cid), now, y) ==> y != cid && Selects(DueToStart, s, now, y)
  {
  }

  /**
   * A failed proof is no longer overdue; failing it makes no other proof overdue and no
   * campaign due to start, and keeps every application's campaign stored.
   */
  lemma {:induction false} FailProofSelects(s: State, aid: Id, now: Millis, refundFor: Id -> Id)
    requires aid in s.applications && AppsHaveCampaigns(s.campaigns, s.applications)
    ensures var t := FailProof(s, aid, now, refundFor);
            && (forall y :: Selects(ProofOverdue, t, now, y) ==> y != aid && Selects(ProofOverdue, s, now, y))
            && (forall y :: Selects(DueToStart, t, now, y) ==> Selects(DueToStart, s, now, y))
            && AppsHaveCampaigns(t.campaigns, t.applications)
  {
  }

  /** An approved review is no longer overdue; approving makes no proof or review overdue. */
  lemma {:induction false} AutoApproveSelects(s: State, aid: Id, now: Millis)
    requires aid in s.applications
    ensures var t := AutoApprove(s, aid, now);
            && (forall y :: Selects(ReviewOverdue, t, now, y) ==> y != aid && Selects(ReviewOverdue, s, now, y))
            && (forall y :: Selects(ProofOverdue, t, now, y) ==> Selects(ProofOverdue, s, now, y))
  {
  }

  /** A payout makes nothing newly selected by any of the four queries. */
  lemma {:induction false} PayOutSelects(s: State, cid: Id, now: Millis, accounts: map<Id, Id>, transferFor: Id -> Id)
    requires cid in s.campaigns
    ensures forall q, y :: Selects(q, PayOut(s, cid, now, accounts, transferFor).0, now, y) ==> Selects(q, s, now, y)
  {
  }

  /** A payout of one campaign leaves any other campaign that was not payable not payable. */
  lemma {:induction false} PayOutKeepsUnpayable(s: State, cid: Id, now: Millis, accounts: map<Id, Id>,
                                                transferFor: Id -> Id, other: Id)
    requires cid in s.campaigns && other in s.campaigns && other != cid && !Payable(s, other, accounts)
    ensures !Payable(PayOut(s, cid, now, accounts, transferFor).0, other, accounts)
  {
  }

  /** The first `k` elements are the first `k - 1` and the `k`-th. */
  lemma PrefixMembers(ids: seq<Id>, k: int)
    requires 0 < k <= |ids|
    ensures forall y :: y in ids[..k] <==> y in ids[..k - 1] || y == ids[k - 1]
  {
    assert ids[..k] == ids[..k - 1] + [ids[k - 1]];
  }

  /** In a list without duplicates, the elements before position `i` differ from the one at `i`. */
  lemma PrefixNotLater(ids: seq<Id>, i: int, y: Id)
    requires NoDuplicates(ids) && 0 <= i < |ids| && y in ids[..i]
    ensures y != ids[i]
  {
    var j :| 0 <= j < i && ids[..i][j] == y;
    assert ids[j] == y;
  }

  /** After pass 1, the campaigns still due are those that were due and not in the batch. */
  lemma {:induction false} ActivateAllSelects(s: State, batch: seq<Id>, now: Millis, k: nat)
    requires forall i :: 0 <= i < |batch| ==> batch[i] in s.campaigns
    requires k <= |batch|
    ensures forall y :: Selects(DueToStart, ActivateAll(s, batch[..k]), now, y) ==>
              y !in batch[..k] && Selects(DueToStart, s, now, y)
  {
    if k == 0 {
      assert batch[..0] == [];
    } else {
      ActivateAllSelects(s, batch, now, k - 1);
      ActivateAllStepSelects(s, batch, now, k);
      PrefixMembers(batch, k);
    }
  }

  /** `ActivateSelects` for the `k`-th step of pass 1. */
  lemma {:induction false} ActivateAllStepSelects(s: State, batch: seq<Id>, now: Millis, k: nat)
    requires forall i :: 0 <= i < |batch| ==> batch[i] in s.campaigns
    requires 0 < k <= |batch|
    ensures forall y :: Selects(DueToStart, ActivateAll(s, batch[..k]), now, y) ==>
              y != batch[k - 1] && Selects(DueToStart, ActivateAll(s, batch[..k - 1]), now, y)
  {
    ActivateAllSnoc(s, batch, k - 1);
    ActivateSelects(ActivateAll(s, batch[..k - 1]), batch[k - 1], now);
  }

  /**
   * After pass 2, the proofs still overdue are those that were overdue and not in the batch,
   * and no campaign has become due to start.
   */
  lemma {:induction false} FailAllSelects(s: State, batch: seq<Id>, now: Millis, refundFor: Id -> Id, k: nat)
    requires forall i :: 0 <= i < |batch| ==> batch[i] in s.applications
    requires AppsHaveCampaigns(s.campaigns, s.applications) && k <= |batch|
    ensures var t := FailAll(s, batch[..k], now, refundFor);
            && (forall y :: Selects(ProofOverdue, t, now, y) ==> y !in batch[..k] && Selects(ProofOverdue, s, now, y))
            && (forall y :: Selects(DueToStart, t, now, y) ==> Selects(DueToStart, s, now, y))
            && AppsHaveCampaigns(t.campaigns, t.applications)
  {
    if k == 0 {
      assert batch[..0] == [];
    } else {
      FailAllSelects(s, batch, now, refundFor, k - 1);
      FailAllStepSelects(s, batch, now, refundFor, k);
      PrefixMembers(batch, k);
    }
  }

  /** `FailProofSelects` for the `k`-th step of pass 2. */
  lemma {:induction false} FailAllStepSelects(s: State, batch: seq<Id>, now: Millis, refundFor: Id -> Id, k: nat)
    requires forall i :: 0 <= i < |batch| ==> batch[i] in s.applications
    requires 0 < k <= |batch|
    requires AppsHaveCampaigns(FailAll(s, batch[..k - 1], now, refundFor).campaigns,
                               FailAll(s, batch[..k - 1], now, refundFor).applications)
    ensures var before := FailAll(s, batch[..k - 1], now, refundFor);
            var t := FailAll(s, batch[..k], now, refundFor);
            && (forall y :: Selects(ProofOverdue, t, now, y) ==> y != batch[k - 1] && Selects(ProofOverdue, before, now, y))
            && (forall y :: Selects(DueToStart, t, now, y) ==> Selects(DueToStart, before, now, y))
            && AppsHaveCampaigns(t.campaigns, t.applications)
  {
    FailAllSnoc(s, batch, k - 1, now, refundFor);
    FailProofSelects(FailAll(s, batch[..k - 1], now, refundFor), batch[k - 1], now, refundFor);
  }

  /**
   * After pass 3, the reviews still overdue are those that were overdue and not in the batch,
   * and no proof has become overdue.
   */
  lemma {:induction false} ApproveAllSelects(s: State, batch: seq<Id>, now: Millis, k: nat)
    requires forall i :: 0 <= i < |batch| ==> batch[i] in s.applications
    requires k <= |batch|
    ensures var t := ApproveAll(s, batch[..k], now);
            && (forall y :: Selects(ReviewOverdue, t, now, y) ==> y !in batch[..k] && Selects(ReviewOverdue, s, now, y))
            && (forall y :: Selects(ProofOverdue, t, now, y) ==> Selects(ProofOverdue, s, now, y))
  {
    if k == 0 {
      assert batch[..0] == [];
    } else {
      ApproveAllSelects(s, batch, now, k - 1);
      ApproveAllStepSelects(s, batch, now, k);
      PrefixMembers(batch, k);
    }
  }

  /** `AutoApproveSelects` for the `k`-th step of pass 3. */
  lemma {:induction false} ApproveAllStepSelects(s: State, batch: seq<Id>, now: Millis, k: nat)
    requires forall i :: 0 <= i < |batch| ==> batch[i] in s.applications
    requires 0 < k <= |batch|
    ensures var before := ApproveAll(s, batch[..k - 1], now);
            var t := ApproveAll(s, batch[..k], now);
            && (forall y :: Selects(ReviewOverdue, t, now, y) ==> y != batch[k - 1] && Selects(ReviewOverdue, before, now, y))
            && (forall y :: Selects(ProofOverdue, t, now, y) ==> Selects(ProofOverdue, before, now, y))
  {
    ApproveAllSnoc(s, batch, k - 1, now);
    AutoApproveSelects(ApproveAll(s, batch[..k - 1], now), batch[k - 1], now);
  }

  /**
   * Pass 4 makes nothing newly selected, and leaves every campaign of its batch either paid
   * out or not payable.
   */
  lemma {:induction false} PayAllSelects(s: State, batch: seq<Id>, now: Millis, accounts: map<Id, Id>,
                                         transferFor: Id -> Id, k: nat)
    requires forall i :: 0 <= i < |batch| ==> batch[i] in s.campaigns
    requires NoDuplicates(batch) && k <= |batch|
    ensures var t := PayAll(s, batch[..k], now, accounts, transferFor).0;
            && (forall q, y :: Selects(q, t, now, y) ==> Selects(q, s, now, y))
            && (forall y :: y in batch[..k] ==> t.campaigns[y].transferId.Some? || !Payable(t, y, accounts))
  {
    if k == 0 {
      assert batch[..0] == [];
    } else {
      PayAllSelects(s, batch, now, accounts, transferFor, k - 1);
      PayAllSnoc(s, batch, k - 1, now, accounts, transferFor);
      var before := PayAll(s, batch[..k - 1], now, accounts, transferFor).0;
      var x := batch[k - 1];
      PayOutSelects(before, x, now, accounts, transferFor);
      NotLater(batch, k - 1);
      PrefixMembers(batch, k);
      forall y | y in batch[..k - 1] && !Payable(before, y, accounts)
        ensures !Payable(PayOut(before, x, now, accounts, transferFor).0, y, accounts)
      {
        PrefixNotLater(batch, k - 1, y);
        PayOutKeepsUnpayable(before, x, now, accounts, transferFor, y);
      }
    }
  }

  /** Pass 4 over campaigns none of which is payable does nothing. */
  lemma {:induction false} PayAllIdle(s: State, batch: seq<Id>, now: Millis, accounts: map<Id, Id>, transferFor: Id -> Id)
    requires forall i :: 0 <= i < |batch| ==> batch[i] in s.campaigns && !Payable(s, batch[i], accounts)
    ensures PayAll(s, batch, now, accounts, transferFor) == (s, 0)
    decreases |batch|
  {
    if batch != [] {
      PayAllIdle(s, batch[..|batch| - 1], now, accounts, transferFor);
    }
  }

  /** After pass 1, no campaign of the collection is due to start. */
  lemma {:induction false} ActivatePassSettles(s: State, corder: seq<Id>, now: Millis)
    ensures forall y :: y in corder ==> !Selects(DueToStart, ActivateAll(s, Find(DueToStart, corder, s, now)), now, y)
  {
    var b := Find(DueToStart, corder, s, now);
    ActivateAllSelects(s, b, now, |b|);
    assert b[..|b|] == b;
  }

  /** After pass 2, no application of the collection has an overdue proof, and no campaign became due. */
  lemma {:induction false} FailPassSettles(s: State, aorder: seq<Id>, now: Millis, refundFor: Id -> Id)
    requires AppsHaveCampaigns(s.campaigns, s.applications)
    ensures var t := FailAll(s, Find(ProofOverdue, aorder, s, now), now, refundFor);
            && (forall y :: y in aorder ==> !Selects(ProofOverdue, t, now, y))
            && (forall y :: Selects(DueToStart, t, now, y) ==> Selects(DueToStart, s, now, y))
  {
    var b := Find(ProofOverdue, aorder, s, now);
    FailAllSelects(s, b, now, refundFor, |b|);
    assert b[..|b|] == b;
  }

  /** After pass 3, no application of the collection has an overdue review, and nothing else became selected. */
  lemma {:induction false} ApprovePassSettles(s: State, aorder: seq<Id>, now: Millis)
    ensures var t := ApproveAll(s, Find(ReviewOverdue, aorder, s, now), now);
            && (forall y :: y in aorder ==> !Selects(ReviewOverdue, t, now, y))
            && (forall y :: Selects(ProofOverdue, t, now, y) ==> Selects(ProofOverdue, s, now, y))
            && (forall y :: Selects(DueToStart, t, now, y) ==> Selects(DueToStart, s, now, y))
  {
    var b := Find(ReviewOverdue, aorder, s, now);
    ApproveAllSelects(s, b, now, |b|);
    assert b[..|b|] == b;
  }

  /** Activating a campaign keeps every application's campaign stored. */
  lemma ActivateKeepsLinks(s: State, cid: Id)
    requires cid in s.campaigns && AppsHaveCampaigns(s.campaigns, s.applications)
    ensures AppsHaveCampaigns(Activate(s, cid).campaigns, Activate(s, cid).applications)
  {
    var apps := WithProofDeadline(s.campaigns[cid], s.applications);
    assert forall aid :: aid in apps ==> apps[aid].campaign == s.applications[aid].campaign;
  }

  /** Pass 1 keeps every application's campaign stored. */
  lemma {:induction false} ActivateAllKeepsLinks(s: State, batch: seq<Id>)
    requires forall i :: 0 <= i < |batch| ==> batch[i] in s.campaigns
    requires AppsHaveCampaigns(s.campaigns, s.applications)
    ensures AppsHaveCampaigns(ActivateAll(s, batch).campaigns, ActivateAll(s, batch).applications)
    decreases |batch|
  {
    if batch != [] {
      var init := batch[..|batch| - 1];
      ActivateAllKeepsLinks(s, init);
      ActivateKeepsLinks(ActivateAll(s, init), batch[|batch| - 1]);
    }
  }

  /**
   * A state the sweep leaves nothing to do in: no campaign is due to start, no proof or review
   * is overdue, and every campaign still releasable is not payable.
   */
  ghost predicate Quiescent(s: State, corder: seq<Id>, aorder: seq<Id>, now: Millis, accounts: map<Id, Id>) {
    && (forall y :: y in corder ==> !Selects(DueToStart, s, now, y))
    && (forall y :: y in aorder ==> !Selects(ProofOverdue, s, now, y) && !Selects(ReviewOverdue, s, now, y))
    && (forall y :: Selects(Releasable, s, now, y) ==> !Payable(s, y, accounts))
  }

  /** After passes 1 to 3, pass 4 leaves the state quiescent. */
  lemma {:induction false} PayPassSettles(s: State, corder: seq<Id>, aorder: seq<Id>, now: Millis,
                                          accounts: map<Id, Id>, transferFor: Id -> Id)
    requires NoDuplicates(corder) && forall y :: y in s.campaigns ==> y in corder
    requires forall y :: y in corder ==> !Selects(DueToStart, s, now, y)
    requires forall y :: y in aorder ==> !Selects(ProofOverdue, s, now, y) && !Selects(ReviewOverdue, s, now, y)
    ensures Quiescent(PayAll(s, Find(Releasable, corder, s, now), now, accounts, transferFor).0, corder, aorder, now, accounts)
  {
    var b := Find(Releasable, corder, s, now);
    PayAllSelects(s, b, now, accounts, transferFor, |b|);
    assert b[..|b|] == b;
    var t := PayAll(s, b, now, accounts, transferFor).0;
    forall y | Selects(Releasable, t, now, y)
      ensures !Payable(t, y, accounts)
    {
      assert Selects(Releasable, s, now, y) && y in b;
    }
  }

  /** After one sweep at instant `now`, the state is quiescent at `now`. */
  lemma {:induction false} SweepSettles(s: State, corder: seq<Id>, aorder: seq<Id>, now: Millis,
                                        accounts: map<Id, Id>, ans: SweepAnswers)
    requires InvState(s, corder, aorder)
    ensures Quiescent(Sweep(s, corder, aorder, now, accounts, ans).0, corder, aorder, now, accounts)
  {
    var b1 := Find(DueToStart, corder, s, now);
    var s1 := ActivateAll(s, b1);
    ActivatePassSettles(s, corder, now);
    ActivateAllKeepsLinks(s, b1);
    var s2 := FailAll(s1, Find(ProofOverdue, aorder, s1, now), now, ans.refundFor);
    FailPassSettles(s1, aorder, now, ans.refundFor);
    var s3 := ApproveAll(s2, Find(ReviewOverdue, aorder, s2, now), now);
    ApprovePassSettles(s2, aorder, now);
    PayPassSettles(s3, corder, aorder, now, accounts, ans.transferFor);
  }

  /** A sweep over a quiescent state does nothing and reports nothing, whatever ids the processor would assign. */
  lemma {:induction false} QuiescentSweepIsIdle(s: State, corder: seq<Id>, aorder: seq<Id>, now: Millis,
                                              accounts: map<Id, Id>, ans: SweepAnswers)
    requires Quiescent(s, corder, aorder, now, accounts)
    ensures Sweep(s, corder, aorder, now, accounts, ans) == (s, Summary(0, 0, 0, 0))
  {
    FindNothing(DueToStart, corder, s, now);
    FindNothing(ProofOverdue, aorder, s, now);
    FindNothing(ReviewOverdue, aorder, s, now);
    var b4 := Find(Releasable, corder, s, now);
    PayAllIdle(s, b4, now, accounts, ans.transferFor);
  }

  /**
   * Running the sweep twice at the same instant is the same as running it once: the second
   * run changes nothing, makes no processor call and reports zero in every count.
   */
  lemma {:induction false} SweepTwiceIsOnce(s: State, corder: seq<Id>, aorder: seq<Id>, now: Millis,
                                            accounts: map<Id, Id>, ans1: SweepAnswers, ans2: SweepAnswers)
    requires InvState(s, corder, aorder)
    ensures var first := Sweep(s, corder, aorder, now, accounts, ans1);
            Sweep(first.0, corder, aorder, now, accounts, ans2) == (first.0, Summary(0, 0, 0, 0))
  {
    SweepSettles(s, corder, aorder, now, accounts, ans1);
    QuiescentSweepIsIdle(Sweep(s, corder, aorder, now, accounts, ans1).0, corder, aorder, now, accounts, ans2);
  }
}
