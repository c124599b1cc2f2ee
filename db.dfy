/**
 * The database the handlers share: the campaign, application and deal collections, the parts
 * of users and social profiles the core reads, and the payment processor handle.
 * Besides the collections, this module states what every handler keeps true of them.
 */
module Db {
  import opened Common
  import opened CampaignModel
  import opened ApplicationModel
  import DealModel
  import opened PaymentProcessor
  import opened EscrowKeys

  /** `order` lists the keys of `m` once each: the collection's natural (insertion) order. */
  ghost predicate OrderOf<V>(order: seq<Id>, m: map<Id, V>) {
    && (forall i, j :: 0 <= i < j < |order| ==> order[i] != order[j])
    && (forall id :: id in m <==> id in order)
  }

  /**
   * A campaign's selection and its applications agree: a selected application belongs to its
   * campaign; an application in a post-selection status is its campaign's selected one (so a
   * campaign has at most one); an open campaign has selected nobody and has no price yet.
   */
  ghost predicate SelectionConsistent(campaigns: map<Id, Campaign>, applications: map<Id, Application>) {
    && (forall cid :: cid in campaigns && campaigns[cid].selectedApplication.Some? ==>
          campaigns[cid].selectedApplication.value in applications &&
          applications[campaigns[cid].selectedApplication.value].campaign == cid)
    && (forall aid :: aid in applications && Chosen(applications[aid].status) ==>
          applications[aid].campaign in campaigns &&
          campaigns[applications[aid].campaign].selectedApplication == Some(aid))
    && (forall cid :: cid in campaigns && campaigns[cid].status == Open ==>
          campaigns[cid].selectedApplication.None? && campaigns[cid].snapshot.None?)
  }

  /** Every application refers to a stored campaign (applications are only created against one, and campaigns are never deleted). */
  ghost predicate AppsHaveCampaigns(campaigns: map<Id, Campaign>, applications: map<Id, Application>) {
    forall aid :: aid in applications ==> applications[aid].campaign in campaigns
  }

  /** A refund request for campaign `cid`, from either key family. */
  predicate RefundFor(call: Call, cid: Id) {
    call.CreateRefund? && (call.key == Key(Refund, cid) || call.key == SweepKey(SweepRefund, cid))
  }

  /** A payout request for campaign `cid`, from either key family. */
  predicate TransferFor(call: Call, cid: Id) {
    call.CreateTransfer? && (call.key == Key(Transfer, cid) || call.key == SweepKey(SweepTransfer, cid))
  }

  function Refunds(log: seq<Call>, cid: Id): nat {
    if log == [] then 0
    else Refunds(log[..|log| - 1], cid) + (if RefundFor(log[|log| - 1], cid) then 1 else 0)
  }

  function Transfers(log: seq<Call>, cid: Id): nat {
    if log == [] then 0
    else Transfers(log[..|log| - 1], cid) + (if TransferFor(log[|log| - 1], cid) then 1 else 0)
  }

  /**
   * No campaign was refunded twice or paid out twice, and every refund or payout that was
   * requested is recorded on its campaign.
   */
  ghost predicate MoneyMovesOnce(campaigns: map<Id, Campaign>, log: seq<Call>) {
    && (forall cid :: Refunds(log, cid) <= 1)
    && (forall cid :: Refunds(log, cid) == 1 ==> cid in campaigns && campaigns[cid].refundId.Some?)
    && (forall cid :: Transfers(log, cid) <= 1)
    && (forall cid :: Transfers(log, cid) == 1 ==> cid in campaigns && campaigns[cid].transferId.Some?)
  }

  ghost predicate Inv(campaigns: map<Id, Campaign>, campaignOrder: seq<Id>,
                      applications: map<Id, Application>, applicationOrder: seq<Id>, log: seq<Call>) {
    && OrderOf(campaignOrder, campaigns)
    && OrderOf(applicationOrder, applications)
    && OnePerPair(applications)
    && AppsHaveCampaigns(campaigns, applications)
    && SelectionConsistent(campaigns, applications)
    && MoneyMovesOnce(campaigns, log)
  }

  /**
   * What no step may undo on a campaign: the pricing snapshot is never recomputed, a refund
   * or payout handle is never replaced, the selection is never changed, a cancelled campaign
   * stays cancelled and no campaign goes back to open.
   */
  predicate Settled(c: Campaign, d: Campaign) {
    && d.brand == c.brand && d.startDate == c.startDate && d.endDate == c.endDate
    && (c.snapshot.Some? ==> d.snapshot == c.snapshot)
    && (c.selectedApplication.Some? ==> d.selectedApplication == c.selectedApplication)
    && (c.refundId.Some? ==> d.refundId == c.refundId)
    && (c.transferId.Some? ==> d.transferId == c.transferId)
    && (c.status == Cancelled ==> d.status == Cancelled)
    && (c.status != Open ==> d.status != Open)
  }

  ghost predicate Evolved(before: map<Id, Campaign>, after: map<Id, Campaign>) {
    before.Keys <= after.Keys && forall cid :: cid in before ==> Settled(before[cid], after[cid])
  }

  /** What no step may undo on an application: its campaign and influencer, and having been chosen. */
  predicate AppSettled(a: Application, b: Application) {
    b.campaign == a.campaign && b.influencer == a.influencer && (Chosen(a.status) ==> Chosen(b.status))
  }

  ghost predicate AppsEvolved(before: map<Id, Application>, after: map<Id, Application>) {
    before.Keys <= after.Keys && forall aid :: aid in before ==> AppSettled(before[aid], after[aid])
  }

  lemma EvolvedTransitive(a: map<Id, Campaign>, b: map<Id, Campaign>, c: map<Id, Campaign>)
    requires Evolved(a, b) && Evolved(b, c)
    ensures Evolved(a, c)
  {
  }

  lemma AppsEvolvedTransitive(a: map<Id, Application>, b: map<Id, Application>, c: map<Id, Application>)
    requires AppsEvolved(a, b) && AppsEvolved(b, c)
    ensures AppsEvolved(a, c)
  {
  }

  /** The refund and payout keys of two campaigns coincide only if the campaigns do. */
  lemma {:induction false} MoneyKeysSeparate(call: Call, cid1: Id, cid2: Id)
    requires (RefundFor(call, cid1) && RefundFor(call, cid2)) || (TransferFor(call, cid1) && TransferFor(call, cid2))
    ensures cid1 == cid2
  {
    var k := call.key;
    if k == Key(Refund, cid1) || k == Key(Transfer, cid1) {
      if k == Key(Refund, cid2) || k == Key(Transfer, cid2) {
        if k == Key(Refund, cid1) {
          if k == Key(Refund, cid2) { KeyInjective(Refund, cid1, Refund, cid2); }
          else { KeyInjective(Refund, cid1, Transfer, cid2); }
        } else {
          if k == Key(Refund, cid2) { KeyInjective(Transfer, cid1, Refund, cid2); }
          else { KeyInjective(Transfer, cid1, Transfer, cid2); }
        }
      } else if k == SweepKey(SweepRefund, cid2) {
        SweepKeyNeverEscrowKey(SweepRefund, cid2, if k == Key(Refund, cid1) then Refund else Transfer, cid1);
      } else {
        SweepKeyNeverEscrowKey(SweepTransfer, cid2, if k == Key(Refund, cid1) then Refund else Transfer, cid1);
      }
    } else if k == SweepKey(SweepRefund, cid1) {
      if k == Key(Refund, cid2) {
        SweepKeyNeverEscrowKey(SweepRefund, cid1, Refund, cid2);
      } else if k == Key(Transfer, cid2) {
        SweepKeyNeverEscrowKey(SweepRefund, cid1, Transfer, cid2);
      } else if k == SweepKey(SweepRefund, cid2) {
        SweepKeyInjective(SweepRefund, cid1, SweepRefund, cid2);
      } else {
        SweepKeyInjective(SweepRefund, cid1, SweepTransfer, cid2);
      }
    } else {
      assert k == SweepKey(SweepTransfer, cid1);
      if k == Key(Refund, cid2) {
        SweepKeyNeverEscrowKey(SweepTransfer, cid1, Refund, cid2);
      } else if k == Key(Transfer, cid2) {
        SweepKeyNeverEscrowKey(SweepTransfer, cid1, Transfer, cid2);
      } else if k == SweepKey(SweepRefund, cid2) {
        SweepKeyInjective(SweepTransfer, cid1, SweepRefund, cid2);
      } else {
        SweepKeyInjective(SweepTransfer, cid1, SweepTransfer, cid2);
      }
    }
  }

  /** A call that is neither a refund nor a payout, or a campaign update that keeps every handle, keeps money moving once. */
  lemma {:induction false} QuietStepKeepsMoney(cs: map<Id, Campaign>, log: seq<Call>, cs': map<Id, Campaign>, calls: seq<Call>)
    requires MoneyMovesOnce(cs, log) && Evolved(cs, cs')
    requires forall i :: 0 <= i < |calls| ==> !calls[i].CreateRefund? && !calls[i].CreateTransfer?
    ensures MoneyMovesOnce(cs', log + calls)
  {
    forall cid
      ensures Refunds(log + calls, cid) == Refunds(log, cid) && Transfers(log + calls, cid) == Transfers(log, cid)
    {
      QuietCallsCountNothing(log, calls, cid);
    }
  }

  lemma {:induction false} QuietCallsCountNothing(log: seq<Call>, calls: seq<Call>, cid: Id)
    requires forall i :: 0 <= i < |calls| ==> !calls[i].CreateRefund? && !calls[i].CreateTransfer?
    ensures Refunds(log + calls, cid) == Refunds(log, cid) && Transfers(log + calls, cid) == Transfers(log, cid)
    decreases |calls|
  {
    if calls != [] {
      var init := calls[..|calls| - 1];
      var all := log + calls;
      assert all[..|all| - 1] == log + init;
      assert all[|all| - 1] == calls[|calls| - 1];
      QuietCallsCountNothing(log, init, cid);
      assert Refunds(all, cid) == Refunds(log + init, cid);
      assert Transfers(all, cid) == Transfers(log + init, cid);
    } else {
      assert log + calls == log;
    }
  }

  /**
   * A refund requested for a campaign that had none, recorded on that campaign, keeps money
   * moving once; so does a payout requested for a campaign that had none.
   */
  lemma {:induction false} FirstMoveKeepsMoney(cs: map<Id, Campaign>, log: seq<Call>, cs': map<Id, Campaign>,
                                                call: Call, cid: Id)
    requires MoneyMovesOnce(cs, log) && Evolved(cs, cs') && cid in cs
    requires (RefundFor(call, cid) && cs[cid].refundId.None? && cs'[cid].refundId.Some?) ||
             (TransferFor(call, cid) && cs[cid].transferId.None? && cs'[cid].transferId.Some?)
    ensures MoneyMovesOnce(cs', log + [call])
  {
    forall other
      ensures Refunds(log + [call], other) == Refunds(log, other) + (if RefundFor(call, other) then 1 else 0)
      ensures Transfers(log + [call], other) == Transfers(log, other) + (if TransferFor(call, other) then 1 else 0)
    {
      assert (log + [call])[..|log|] == log;
    }
    forall other | RefundFor(call, other) || TransferFor(call, other)
      ensures other == cid
    {
      MoneyKeysSeparate(call, cid, other);
    }
  }

  /**
   * Rewriting one stored campaign without touching its selection or price, and without
   * reopening it, keeps every part of the invariant that is not about money.
   */
  lemma {:induction false} RewriteKeepsShape(cs: map<Id, Campaign>, corder: seq<Id>, apps: map<Id, Application>,
                                             aorder: seq<Id>, cid: Id, d: Campaign)
    requires OrderOf(corder, cs) && AppsHaveCampaigns(cs, apps) && SelectionConsistent(cs, apps) && cid in cs
    requires d.selectedApplication == cs[cid].selectedApplication && d.snapshot == cs[cid].snapshot
    requires d.status == Open ==> cs[cid].status == Open
    ensures OrderOf(corder, cs[cid := d]) && AppsHaveCampaigns(cs[cid := d], apps) && SelectionConsistent(cs[cid := d], apps)
  {
    assert cs[cid := d].Keys == cs.Keys;
  }

  /** The same rewrite, keeping the refund and payout handles too, keeps the whole invariant. */
  lemma {:induction false} RewriteKeepsInv(cs: map<Id, Campaign>, corder: seq<Id>, apps: map<Id, Application>,
                                           aorder: seq<Id>, log: seq<Call>, cid: Id, d: Campaign)
    requires Inv(cs, corder, apps, aorder, log) && cid in cs
    requires d.selectedApplication == cs[cid].selectedApplication && d.snapshot == cs[cid].snapshot
    requires d.status == Open ==> cs[cid].status == Open
    requires d.refundId == cs[cid].refundId && d.transferId == cs[cid].transferId
    ensures Inv(cs[cid := d], corder, apps, aorder, log)
  {
    RewriteKeepsShape(cs, corder, apps, aorder, cid, d);
    assert MoneyMovesOnce(cs[cid := d], log);
  }

  /**
   * Rewriting one campaign, together with processor calls that neither refund nor pay out, keeps
   * the invariant when the rewrite keeps the selection, the price and both money handles and
   * undoes nothing.
   */
  lemma {:induction false} QuietRewriteKeepsInv(cs: map<Id, Campaign>, corder: seq<Id>, apps: map<Id, Application>,
                                                aorder: seq<Id>, log: seq<Call>, cid: Id, d: Campaign, calls: seq<Call>,
                                                cs': map<Id, Campaign>, log': seq<Call>)
    requires Inv(cs, corder, apps, aorder, log) && cid in cs && Settled(cs[cid], d)
    requires d.selectedApplication == cs[cid].selectedApplication && d.snapshot == cs[cid].snapshot
    requires d.refundId == cs[cid].refundId && d.transferId == cs[cid].transferId
    requires forall i :: 0 <= i < |calls| ==> !calls[i].CreateRefund? && !calls[i].CreateTransfer?
    requires cs' == cs[cid := d] && log' == log + calls
    ensures Inv(cs', corder, apps, aorder, log') && Evolved(cs, cs')
  {
    RewriteKeepsShape(cs, corder, apps, aorder, cid, d);
    assert Evolved(cs, cs');
    QuietStepKeepsMoney(cs, log, cs', calls);
  }

  /** Storing a new, untouched campaign under a fresh id keeps the invariant. */
  lemma {:induction false} AddCampaignKeepsInv(cs: map<Id, Campaign>, corder: seq<Id>, apps: map<Id, Application>,
                                               aorder: seq<Id>, log: seq<Call>, newId: Id, c: Campaign,
                                               cs': map<Id, Campaign>, corder': seq<Id>)
    requires Inv(cs, corder, apps, aorder, log) && newId !in cs && Untouched(c)
    requires cs' == cs[newId := c] && corder' == corder + [newId]
    ensures Inv(cs', corder', apps, aorder, log) && Evolved(cs, cs')
  {
    AddedCampaignOrder(cs, corder, newId, c);
    AddedCampaignSelection(cs, apps, newId, c);
    AddedCampaignMoney(cs, log, newId, c);
  }

  lemma {:induction false} AddedCampaignOrder(cs: map<Id, Campaign>, corder: seq<Id>, newId: Id, c: Campaign)
    requires OrderOf(corder, cs) && newId !in cs
    ensures OrderOf(corder + [newId], cs[newId := c])
  {
  }

  lemma {:induction false} AddedCampaignSelection(cs: map<Id, Campaign>, apps: map<Id, Application>, newId: Id, c: Campaign)
    requires SelectionConsistent(cs, apps) && AppsHaveCampaigns(cs, apps) && newId !in cs && Untouched(c)
    ensures SelectionConsistent(cs[newId := c], apps) && AppsHaveCampaigns(cs[newId := c], apps)
  {
  }

  lemma {:induction false} AddedCampaignMoney(cs: map<Id, Campaign>, log: seq<Call>, newId: Id, c: Campaign)
    requires MoneyMovesOnce(cs, log) && newId !in cs
    ensures MoneyMovesOnce(cs[newId := c], log) && Evolved(cs, cs[newId := c])
  {
  }

  /**
   * Storing a new application under a fresh id keeps the invariant when it refers to a stored
   * campaign, its influencer has no application to that campaign yet, and it is not chosen.
   */
  lemma {:induction false} AddApplicationKeepsInv(cs: map<Id, Campaign>, corder: seq<Id>, apps: map<Id, Application>,
                                                  aorder: seq<Id>, log: seq<Call>, newId: Id, a: Application,
                                                  apps': map<Id, Application>, aorder': seq<Id>)
    requires Inv(cs, corder, apps, aorder, log) && newId !in apps
    requires a.campaign in cs && !Chosen(a.status) && !HasApplied(apps, a.campaign, a.influencer)
    requires apps' == apps[newId := a] && aorder' == aorder + [newId]
    ensures Inv(cs, corder, apps', aorder', log) && AppsEvolved(apps, apps')
  {
    assert OrderOf(aorder', apps');
    InsertKeepsOnePerPair(apps, newId, a);
    AddedApplicationSelection(cs, apps, newId, a);
  }

  lemma {:induction false} AddedApplicationSelection(cs: map<Id, Campaign>, apps: map<Id, Application>, newId: Id, a: Application)
    requires SelectionConsistent(cs, apps) && AppsHaveCampaigns(cs, apps) && newId !in apps
    requires a.campaign in cs && !Chosen(a.status)
    ensures SelectionConsistent(cs, apps[newId := a]) && AppsHaveCampaigns(cs, apps[newId := a])
    ensures AppsEvolved(apps, apps[newId := a])
  {
  }

  /**
   * Rewriting one application keeps the invariant when its campaign and influencer stay and it
   * is chosen afterwards exactly when it was chosen before.
   */
  lemma {:induction false} RewriteAppKeepsInv(cs: map<Id, Campaign>, corder: seq<Id>, apps: map<Id, Application>,
                                              aorder: seq<Id>, log: seq<Call>, aid: Id, b: Application,
                                              apps': map<Id, Application>)
    requires Inv(cs, corder, apps, aorder, log) && aid in apps
    requires b.campaign == apps[aid].campaign && b.influencer == apps[aid].influencer
    requires Chosen(b.status) == Chosen(apps[aid].status)
    requires apps' == apps[aid := b]
    ensures Inv(cs, corder, apps', aorder, log) && AppsEvolved(apps, apps')
  {
    assert apps'.Keys == apps.Keys;
    RelabelKeepsOnePerPair(apps, apps');
    RewrittenAppSelection(cs, apps, aid, b);
  }

  lemma {:induction false} RewrittenAppSelection(cs: map<Id, Campaign>, apps: map<Id, Application>, aid: Id, b: Application)
    requires SelectionConsistent(cs, apps) && AppsHaveCampaigns(cs, apps) && aid in apps
    requires b.campaign == apps[aid].campaign && b.influencer == apps[aid].influencer
    requires Chosen(b.status) == Chosen(apps[aid].status)
    ensures SelectionConsistent(cs, apps[aid := b]) && AppsHaveCampaigns(cs, apps[aid := b])
    ensures AppsEvolved(apps, apps[aid := b])
  {
  }

  /** The collections a sweep or a handler step reads and writes, as one value. */
  datatype State = State(campaigns: map<Id, Campaign>, applications: map<Id, Application>, log: seq<Call>)

  /** The invariant, over a state value and the (unchanging) orders of the two collections. */
  ghost predicate InvState(s: State, campaignOrder: seq<Id>, applicationOrder: seq<Id>) {
    Inv(s.campaigns, campaignOrder, s.applications, applicationOrder, s.log)
  }

  /**
   * The database. Each collection is a map from document id to document, plus the order in
   * which the documents were inserted (the order an unsorted `find` or `findOne` visits them).
   * `profiles` and `payoutAccounts` are the parts of social profiles and users the core reads:
   * a profile's owner and day prices, a user's connected payout account.
   */
  class Db {
    var campaigns: map<Id, Campaign>
    var campaignOrder: seq<Id>
    var applications: map<Id, Application>
    var applicationOrder: seq<Id>
    var deals: map<Id, DealModel.Deal>
    var profiles: map<Id, DealModel.SocialProfile>
    var payoutAccounts: map<Id, Id>
    const processor: Processor

    ghost predicate Valid()
      reads this, processor
    {
      Inv(campaigns, campaignOrder, applications, applicationOrder, processor.log)
    }

    ghost function View(): State
      reads this, processor
    {
      State(campaigns, applications, processor.log)
    }

    constructor (profiles: map<Id, DealModel.SocialProfile>, payoutAccounts: map<Id, Id>)
      ensures Valid() && fresh(processor)
      ensures campaigns == map[] && applications == map[] && deals == map[] && processor.log == []
      ensures this.profiles == profiles && this.payoutAccounts == payoutAccounts
    {
      campaigns := map[];
      campaignOrder := [];
      applications := map[];
      applicationOrder := [];
      deals := map[];
      this.profiles := profiles;
      this.payoutAccounts := payoutAccounts;
      processor := new Processor();
    }

    /**
     * Saves application `aid` as `b`, a rewrite that keeps its campaign and influencer and
     * whether it is chosen; nothing else changes.
     */
    method SaveApplication(aid: Id, b: Application)
      requires Valid() && aid in applications
      requires b.campaign == applications[aid].campaign && b.influencer == applications[aid].influencer
      requires Chosen(b.status) == Chosen(applications[aid].status)
      modifies this
      ensures Valid()
      ensures applications == old(applications)[aid := b]
      ensures campaigns == old(campaigns) && campaignOrder == old(campaignOrder) && applicationOrder == old(applicationOrder)
      ensures deals == old(deals) && profiles == old(profiles) && payoutAccounts == old(payoutAccounts)
      ensures AppsEvolved(old(applications), applications)
    {
      RewriteAppKeepsInv(campaigns, campaignOrder, applications, applicationOrder, processor.log, aid, b, applications[aid := b]);
      applications := applications[aid := b];
    }
  }
}
