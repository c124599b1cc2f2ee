/** The Application record: one influencer's proposal against one campaign. */
module ApplicationModel {
  import opened Common

  datatype ApplicationStatus =
    | Applied | Selected | ProofSubmitted | Approved | Released
    | Rejected | FailedProof | Disputed | Withdrawn | Refunded

  datatype Application = Application(
    campaign: Id,
    influencer: Id,
    socialProfile: Id,
    proposedPrice: real,
    status: ApplicationStatus,
    proofUrl: Option<string>,
    proofNotes: Option<string>,
    proofSubmittedAt: Option<Millis>,
    proofDueAt: Option<Millis>,
    reviewDueAt: Option<Millis>,
    approvedAt: Option<Millis>,
    rejectedReason: Option<string>)

  /**
   * The statuses only the chosen application of a campaign can be in: every one of them is
   * reached from `Selected`. `Applied`, `Rejected` and `Withdrawn` are the others.
   */
  predicate Chosen(s: ApplicationStatus) {
    s !in {Applied, Rejected, Withdrawn}
  }

  /**
   * A document as the schema creates it; status and all proof, deadline and review fields take
   * their defaults. The schema has no cover-message field, so a cover message sent with the
   * request is not stored.
   */
  function NewApplication(campaign: Id, influencer: Id, socialProfile: Id, proposedPrice: real): (a: Application)
    ensures a.status == Applied && !Chosen(a.status)
    ensures a.campaign == campaign && a.influencer == influencer && a.socialProfile == socialProfile
    ensures a.proposedPrice == proposedPrice
    ensures a.proofUrl.None? && a.proofNotes.None? && a.proofSubmittedAt.None?
    ensures a.proofDueAt.None? && a.reviewDueAt.None? && a.approvedAt.None? && a.rejectedReason.None?
  {
    Application(campaign, influencer, socialProfile, proposedPrice, Applied,
                None, None, None, None, None, None, None)
  }

  /** The unique index on (campaign, influencer): one application per pair. */
  ghost predicate OnePerPair(apps: map<Id, Application>) {
    forall a, b ::
      (a in apps && b in apps && apps[a].campaign == apps[b].campaign &&
       apps[a].influencer == apps[b].influencer) ==> a == b
  }

  /** Whether `influencer` already applied to `campaign` (the handler's `findOne` before creating). */
  predicate HasApplied(apps: map<Id, Application>, campaign: Id, influencer: Id) {
    exists a :: a in apps && apps[a].campaign == campaign && apps[a].influencer == influencer
  }

  /** Adding an application for a pair that has none keeps one application per pair. */
  lemma {:induction false} InsertKeepsOnePerPair(apps: map<Id, Application>, id: Id, a: Application)
    requires OnePerPair(apps) && id !in apps
    requires !HasApplied(apps, a.campaign, a.influencer)
    ensures OnePerPair(apps[id := a])
  {
    var apps' := apps[id := a];
    forall x, y | x in apps' && y in apps' && apps'[x].campaign == apps'[y].campaign &&
                  apps'[x].influencer == apps'[y].influencer
      ensures x == y
    {
      if x != id && y != id {
        assert apps[x] == apps'[x] && apps[y] == apps'[y];
      }
    }
  }

  /** Rewriting applications without touching their campaign or influencer keeps one application per pair. */
  lemma {:induction false} RelabelKeepsOnePerPair(apps: map<Id, Application>, apps': map<Id, Application>)
    requires OnePerPair(apps)
    requires apps'.Keys == apps.Keys
    requires forall a :: a in apps ==> apps'[a].campaign == apps[a].campaign && apps'[a].influencer == apps[a].influencer
    ensures OnePerPair(apps')
  {
    forall x, y | x in apps' && y in apps' && apps'[x].campaign == apps'[y].campaign &&
                  apps'[x].influencer == apps'[y].influencer
      ensures x == y
    {
      assert apps[x].campaign == apps[y].campaign && apps[x].influencer == apps[y].influencer;
    }
  }
}
