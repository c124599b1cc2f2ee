/**
 * The influencer's side of a campaign (apply, edit the proposal, submit proof) and the brand's
 * review of the proof, which captures the held payment on approval and releases the escrow on
 * rejection.
 */
module ApplicationController {
  import opened Common
  import opened CampaignModel
  import opened ApplicationModel
  import opened PaymentProcessor
  import opened EscrowKeys
  import opened Db
  import opened EscrowService
  import StripeController
  import opened JsString

  /** The lowest price a proposal may name. */
  const MinProposedPrice: real := 1.0

  /** The longest proof notes the request schema accepts. */
  const MaxProofNotesLength := 1000

  /** Whether the influencer's application passes every check of `applyToCampaign`. */
  predicate ApplyAllowed(campaigns: map<Id, Campaign>, profiles: map<Id, DealModel.SocialProfile>,
                         apps: map<Id, Application>, caller: Caller, cid: Id, profile: Id,
                         proposedPrice: real, newId: Id)
  {
    && caller.role == Influencer && proposedPrice >= MinProposedPrice
    && cid in campaigns && campaigns[cid].status == Open
    && profile in profiles && profiles[profile].influencer == caller.id
    && !HasApplied(apps, cid, caller.id)
    && newId !in apps
  }

  /**
   * An influencer applies to open campaign `cid` with one of its own social profiles. The cover
   * message is accepted but the schema has no field for it, so it is not stored. `newId` is the
   * id the database assigns.
   */
  method ApplyToCampaign(db: Db, caller: Caller, cid: Id, profile: Id, proposedPrice: real, newId: Id)
    returns (r: Result<Application>)
    requires db.Valid()
    modifies db
    ensures db.Valid()
    ensures caller.role != Influencer ==> r == Err(ApiError(403, "Only influencers can apply"))
    ensures caller.role == Influencer && proposedPrice < MinProposedPrice ==> r == Err(ValidationError)
    ensures (caller.role == Influencer && proposedPrice >= MinProposedPrice && cid !in old(db.campaigns)) ==>
              r == Err(ApiError(404, "Campaign not found"))
    ensures (caller.role == Influencer && proposedPrice >= MinProposedPrice && cid in old(db.campaigns) &&
             old(db.campaigns)[cid].status != Open) ==>
              r == Err(ApiError(400, "Campaign is not open for applications"))
    ensures (caller.role == Influencer && proposedPrice >= MinProposedPrice && cid in old(db.campaigns) &&
             old(db.campaigns)[cid].status == Open && profile !in db.profiles) ==>
              r == Err(ApiError(404, "Social profile not found"))
    ensures (caller.role == Influencer && proposedPrice >= MinProposedPrice && cid in old(db.campaigns) &&
             old(db.campaigns)[cid].status == Open && profile in db.profiles && db.profiles[profile].influencer != caller.id) ==>
              r == Err(ApiError(403, "Profile does not belong to you"))
    ensures (caller.role == Influencer && proposedPrice >= MinProposedPrice && cid in old(db.campaigns) &&
             old(db.campaigns)[cid].status == Open && profile in db.profiles && db.profiles[profile].influencer == caller.id &&
             HasApplied(old(db.applications), cid, caller.id)) ==>
              r == Err(ApiError(400, "You already applied to this campaign"))
    ensures r.Ok? <==> ApplyAllowed(old(db.campaigns), db.profiles, old(db.applications), caller, cid, profile, proposedPrice, newId)
    ensures r.Ok? ==>
              && r.value == NewApplication(cid, caller.id, profile, proposedPrice)
              && db.applications == old(db.applications)[newId := r.value]
              && db.applicationOrder == old(db.applicationOrder) + [newId]
    ensures r.Err? ==> db.applications == old(db.applications) && db.applicationOrder == old(db.applicationOrder)
    ensures db.campaigns == old(db.campaigns) && db.campaignOrder == old(db.campaignOrder)
    ensures AppsEvolved(old(db.applications), db.applications)
    ensures db.deals == old(db.deals) && db.profiles == old(db.profiles) && db.payoutAccounts == old(db.payoutAccounts)
  {
    if caller.role != Influencer {
      return Err(ApiError(403, "Only influencers can apply"));
    }
    if proposedPrice < MinProposedPrice {
      return Err(ValidationError);
    }
    if cid !in db.campaigns {
      return Err(ApiError(404, "Campaign not found"));
    }
    if db.campaigns[cid].status != Open {
      return Err(ApiError(400, "Campaign is not open for applications"));
    }
    if profile !in db.profiles {
      return Err(ApiError(404, "Social profile not found"));
    }
    if db.profiles[profile].influencer != caller.id {
      return Err(ApiError(403, "Profile does not belong to you"));
    }
    if HasApplied(db.applications, cid, caller.id) {
      return Err(ApiError(400, "You already applied to this campaign"));
    }
    if newId in db.applications {
      return Err(InternalError);
    }
    var a := NewApplication(cid, caller.id, profile, proposedPrice);
    db.applications := db.applications[newId := a];
    db.applicationOrder := db.applicationOrder + [newId];
    AddApplicationKeepsInv(db.campaigns, db.campaignOrder, old(db.applications), old(db.applicationOrder), db.processor.log,
                           newId, a, db.applications, db.applicationOrder);
    r := Ok(a);
  }

  /** The application after an edit: the price changes only when one is supplied. */
  function Edited(a: Application, proposedPrice: Option<real>): (b: Application)
    ensures proposedPrice.None? ==> b == a
    ensures proposedPrice.Some? ==> b.proposedPrice == proposedPrice.value && b == a.(proposedPrice := b.proposedPrice)
  {
    match proposedPrice
    case Some(p) => a.(proposedPrice := p)
    case None => a
  }

  /** Whether the influencer's edit passes every check of `updateApplication`. */
  predicate EditAllowed(apps: map<Id, Application>, caller: Caller, aid: Id, proposedPrice: Option<real>) {
    && caller.role == Influencer
    && aid in apps && apps[aid].influencer == caller.id && apps[aid].status == Applied
    && (proposedPrice.Some? ==> proposedPrice.value >= MinProposedPrice)
  }

  /**
   * The influencer edits its proposal while it is still only applied. The ownership and status
   * checks come before the body is validated. A new cover message is not stored (see `ApplyToCampaign`).
   */
  method UpdateApplication(db: Db, caller: Caller, aid: Id, proposedPrice: Option<real>)
    returns (r: Result<Application>)
    requires db.Valid()
    modifies db
    ensures db.Valid()
    ensures caller.role != Influencer ==> r == Err(ApiError(403, "Only influencers"))
    ensures caller.role == Influencer && aid !in old(db.applications) ==> r == Err(ApiError(404, "Application not found"))
    ensures (caller.role == Influencer && aid in old(db.applications) && old(db.applications)[aid].influencer != caller.id) ==>
              r == Err(ApiError(403, "Not authorized"))
    ensures (caller.role == Influencer && aid in old(db.applications) && old(db.applications)[aid].influencer == caller.id &&
             old(db.applications)[aid].status != Applied) ==>
              r == Err(ApiError(400, "Cannot edit after selection"))
    ensures (caller.role == Influencer && aid in old(db.applications) && old(db.applications)[aid].influencer == caller.id &&
             old(db.applications)[aid].status == Applied && proposedPrice.Some? && proposedPrice.value < MinProposedPrice) ==>
              r == Err(ValidationError)
    ensures r.Ok? <==> EditAllowed(old(db.applications), caller, aid, proposedPrice)
    ensures r.Ok? ==> r.value == Edited(old(db.applications)[aid], proposedPrice) &&
                      db.applications == old(db.applications)[aid := r.value]
    ensures r.Err? ==> db.applications == old(db.applications)
    ensures db.campaigns == old(db.campaigns) && db.campaignOrder == old(db.campaignOrder)
    ensures db.applicationOrder == old(db.applicationOrder)
    ensures db.deals == old(db.deals) && db.profiles == old(db.profiles) && db.payoutAccounts == old(db.payoutAccounts)
  {
    if caller.role != Influencer {
      return Err(ApiError(403, "Only influencers"));
    }
    if aid !in db.applications {
      return Err(ApiError(404, "Application not found"));
    }
    var a := db.applications[aid];
    if a.influencer != caller.id {
      return Err(ApiError(403, "Not authorized"));
    }
    if a.status != Applied {
      return Err(ApiError(400, "Cannot edit after selection"));
    }
    if proposedPrice.Some? && proposedPrice.value < MinProposedPrice {
      return Err(ValidationError);
    }
    var b := Edited(a, proposedPrice);
    db.SaveApplication(aid, b);
    r := Ok(b);
  }

  /** The application once its proof is in: the review window opens for one day. */
  function ProofRecorded(a: Application, proofUrl: string, proofNotes: Option<string>, now: Millis): (b: Application)
    ensures b.status == ProofSubmitted && b.proofSubmittedAt == Some(now)
    ensures b.reviewDueAt == Some(now + DayMillis) && b.reviewDueAt.value > b.proofSubmittedAt.value
    ensures b == a.(status := b.status, proofUrl := Some(proofUrl), proofNotes := proofNotes,
                    proofSubmittedAt := b.proofSubmittedAt, reviewDueAt := b.reviewDueAt)
  {
    a.(proofUrl := Some(proofUrl), proofNotes := proofNotes, proofSubmittedAt := Some(now),
       reviewDueAt := Some(now + DayMillis), status := ProofSubmitted)
  }

  /** The proof notes as the request schema passes them on: trimmed, when present. */
  function TrimmedNotes(notes: Option<string>): (r: Option<string>)
    ensures r.None? <==> notes.None?
    ensures r.Some? ==> Trimmed(r.value) && r.value == Trim(notes.value)
  {
    if notes.Some? then Some(Trim(notes.value)) else None
  }

  /** Whether the proof is due no later than `now` allows: no deadline, or `now` not past it. */
  predicate WithinWindow(due: Option<Millis>, now: Millis) {
    due.None? || now <= due.value
  }

  /** Whether the influencer's proof passes every check of `submitProof` before the deadline check. */
  /** Whether the proof notes, when sent, are within the schema's maximum once trimmed. */
  predicate NotesFit(proofNotes: Option<string>) {
    proofNotes.Some? ==> Length(Trim(proofNotes.value)) <= MaxProofNotesLength
  }

  predicate SubmitReady(campaigns: map<Id, Campaign>, apps: map<Id, Application>, caller: Caller, aid: Id,
                        proofNotes: Option<string>)
  {
    && caller.role == Influencer
    && NotesFit(proofNotes)
    && aid in apps && apps[aid].influencer == caller.id
    && apps[aid].status == Selected && apps[aid].proofSubmittedAt.None?
    && apps[aid].campaign in campaigns && campaigns[apps[aid].campaign].status == Active
  }

  /** Whether the influencer's proof passes every check of `submitProof`. */
  predicate SubmitAllowed(campaigns: map<Id, Campaign>, apps: map<Id, Application>, caller: Caller, aid: Id,
                          proofNotes: Option<string>, now: Millis)
  {
    SubmitReady(campaigns, apps, caller, aid, proofNotes) && WithinWindow(apps[aid].proofDueAt, now)
  }

  /**
   * The selected influencer submits proof for an active campaign, once and before the proof
   * deadline. The body is validated before the application is looked up.
   */
  method SubmitProof(db: Db, caller: Caller, aid: Id, proofUrl: string, proofNotes: Option<string>, now: Millis)
    returns (r: Result<Application>)
    requires db.Valid()
    modifies db
    ensures db.Valid()
    ensures caller.role != Influencer ==> r == Err(ApiError(403, "Only influencers can submit proof"))
    ensures caller.role == Influencer && proofNotes.Some? && Length(Trim(proofNotes.value)) > MaxProofNotesLength ==> r == Err(ValidationError)
    ensures (caller.role == Influencer && NotesFit(proofNotes) && aid !in old(db.applications)) ==>
              r == Err(ApiError(404, "Application not found"))
    ensures (caller.role == Influencer && NotesFit(proofNotes) && aid in old(db.applications) &&
             old(db.applications)[aid].influencer != caller.id) ==>
              r == Err(ApiError(403, "Not authorized"))
    ensures (caller.role == Influencer && NotesFit(proofNotes) && aid in old(db.applications) &&
             old(db.applications)[aid].influencer == caller.id && old(db.applications)[aid].status != Selected) ==>
              r == Err(ApiError(400, "Application is not selected"))
    ensures (caller.role == Influencer && NotesFit(proofNotes) && aid in old(db.applications) &&
             old(db.applications)[aid].influencer == caller.id &&
             old(db.applications)[aid].status == Selected && old(db.applications)[aid].proofSubmittedAt.Some?) ==>
              r == Err(ApiError(400, "Proof already submitted"))
    ensures (caller.role == Influencer && NotesFit(proofNotes) && aid in old(db.applications) &&
             old(db.applications)[aid].influencer == caller.id &&
             old(db.applications)[aid].status == Selected && old(db.applications)[aid].proofSubmittedAt.None? &&
             old(db.applications)[aid].campaign in old(db.campaigns) &&
             old(db.campaigns)[old(db.applications)[aid].campaign].status != Active) ==>
              r == Err(ApiError(400, "Campaign is not active"))
    ensures SubmitReady(old(db.campaigns), old(db.applications), caller, aid, proofNotes) &&
            !WithinWindow(old(db.applications)[aid].proofDueAt, now) ==>
              r == Err(ApiError(400, "Proof submission window expired"))
    ensures r.Ok? <==> SubmitAllowed(old(db.campaigns), old(db.applications), caller, aid, proofNotes, now)
    ensures r.Ok? ==> r.value == ProofRecorded(old(db.applications)[aid], Trim(proofUrl), TrimmedNotes(proofNotes), now) &&
                      db.applications == old(db.applications)[aid := r.value]
    ensures r.Err? ==> db.applications == old(db.applications)
    ensures db.campaigns == old(db.campaigns) && db.campaignOrder == old(db.campaignOrder)
    ensures db.applicationOrder == old(db.applicationOrder)
    ensures db.deals == old(db.deals) && db.profiles == old(db.profiles) && db.payoutAccounts == old(db.payoutAccounts)
  {
    if caller.role != Influencer {
      return Err(ApiError(403, "Only influencers can submit proof"));
    }
    if proofNotes.Some? && Length(Trim(proofNotes.value)) > MaxProofNotesLength {
      return Err(ValidationError);
    }
    if aid !in db.applications {
      return Err(ApiError(404, "Application not found"));
    }
    var a := db.applications[aid];
    if a.influencer != caller.id {
      return Err(ApiError(403, "Not authorized"));
    }
    if a.status != Selected {
      return Err(ApiError(400, "Application is not selected"));
    }
    if a.proofSubmittedAt.Some? {
      return Err(ApiError(400, "Proof already submitted"));
    }
    if a.campaign !in db.campaigns {
      // Reading the status of a missing campaign throws.
      return Err(InternalError);
    }
    if db.campaigns[a.campaign].status != Active {
      return Err(ApiError(400, "Campaign is not active"));
    }
    if a.proofDueAt.Some? && now > a.proofDueAt.value {
      return Err(ApiError(400, "Proof submission window expired"));
    }
    var b := ProofRecorded(a, Trim(proofUrl), TrimmedNotes(proofNotes), now);
    db.SaveApplication(aid, b);
    r := Ok(b);
  }

  /** Whether a campaign's payment is held or taken, so that a review can settle it. */
  predicate EscrowFunded(c: Campaign) {
    c.paymentIntentId.Some? && c.paymentStatus in {RequiresCapture, Captured, Succeeded}
  }

  /** Whether the brand's review passes the checks of `reviewProof` up to the proof's status. */
  predicate ReviewReady(campaigns: map<Id, Campaign>, apps: map<Id, Application>, caller: Caller, aid: Id) {
    && caller.role == Brand
    && aid in apps && apps[aid].campaign in campaigns
    && campaigns[apps[aid].campaign].brand == caller.id
    && apps[aid].status == ProofSubmitted
  }

  /** Whether the brand's review passes every check of `reviewProof`. */
  predicate ReviewAllowed(campaigns: map<Id, Campaign>, apps: map<Id, Application>, caller: Caller, aid: Id, now: Millis) {
    && ReviewReady(campaigns, apps, caller, aid)
    && WithinWindow(apps[aid].reviewDueAt, now)
    && EscrowFunded(campaigns[apps[aid].campaign])
  }

  /** The application once approved. */
  function ApprovedAt(a: Application, now: Millis): (b: Application)
    ensures b.status == Approved && b.approvedAt == Some(now) && b == a.(status := b.status, approvedAt := b.approvedAt)
  {
    a.(status := Approved, approvedAt := Some(now))
  }

  /** The rejected application: disputed, with the brand's reason or a default one. */
  function DisputedFor(a: Application, reason: Option<string>): (b: Application)
    ensures b.status == Disputed && b.rejectedReason.Some?
    ensures reason.Some? ==> b.rejectedReason == reason
    ensures reason.None? ==> b.rejectedReason == Some("Proof rejected")
    ensures b == a.(status := b.status, rejectedReason := b.rejectedReason)
  {
    a.(status := Disputed, rejectedReason := Some(if reason.Some? then reason.value else "Proof rejected"))
  }

  /**
   * An approval: the application is approved; a held payment is captured under the capture key
   * and the campaign records it. The campaign afterwards and the calls made.
   */
  function Approval(cid: Id, c: Campaign, now: Millis): (out: (Campaign, seq<Call>))
    requires c.paymentIntentId.Some?
    ensures c.paymentStatus == RequiresCapture ==>
              out == (StripeController.SetCaptured(c, now), [CaptureIntent(c.paymentIntentId.value, Key(Capture, cid))])
    ensures c.paymentStatus != RequiresCapture ==> out == (c, [])
  {
    if c.paymentStatus == RequiresCapture then
      (StripeController.SetCaptured(c, now), [CaptureIntent(c.paymentIntentId.value, Key(Capture, cid))])
    else (c, [])
  }

  /**
   * Approving never moves money twice: the capture happens only for a held payment, which it
   * turns into a captured one, so approving the same campaign again captures nothing; and an
   * approval neither refunds nor pays out.
   */
  lemma {:induction false} ApprovalCapturesOnce(cid: Id, c: Campaign, now1: Millis, now2: Millis)
    requires c.paymentIntentId.Some?
    ensures var first := Approval(cid, c, now1);
            && Approval(cid, first.0, now2) == (first.0, [])
            && |first.1| <= 1
            && (forall i :: 0 <= i < |first.1| ==> first.1[i].CaptureIntent?)
            && first.0.status == c.status
  {
    var first := Approval(cid, c, now1);
    assert first.0.paymentIntentId == c.paymentIntentId;
    assert first.0.paymentStatus != RequiresCapture;
  }

  /**
   * The guards of `reviewProof`, in the order the handler applies them: the error it answers
   * with, or none when the review may proceed. A missing campaign makes reading its brand
   * throw, hence the 500.
   */
  function ReviewCheck(campaigns: map<Id, Campaign>, apps: map<Id, Application>, caller: Caller, aid: Id,
                       now: Millis): (e: Option<ApiError>)
    ensures e.None? <==> ReviewAllowed(campaigns, apps, caller, aid, now)
    ensures caller.role != Brand ==> e == Some(ApiError(403, "Only brands can review proof"))
    ensures caller.role == Brand && aid !in apps ==> e == Some(ApiError(404, "Application not found"))
    ensures (caller.role == Brand && aid in apps && apps[aid].campaign in campaigns &&
             campaigns[apps[aid].campaign].brand != caller.id) ==> e == Some(ApiError(403, "Not authorized"))
    ensures (caller.role == Brand && aid in apps && apps[aid].campaign in campaigns &&
             campaigns[apps[aid].campaign].brand == caller.id && apps[aid].status != ProofSubmitted) ==>
              e == Some(ApiError(400, "Proof not submitted yet"))
    ensures ReviewReady(campaigns, apps, caller, aid) && !WithinWindow(apps[aid].reviewDueAt, now) ==>
              e == Some(ApiError(400, "Review window expired"))
    ensures (ReviewReady(campaigns, apps, caller, aid) && WithinWindow(apps[aid].reviewDueAt, now) &&
             !EscrowFunded(campaigns[apps[aid].campaign])) ==>
              e == Some(ApiError(400, "Campaign is not funded for escrow yet"))
  {
    if caller.role != Brand then Some(ApiError(403, "Only brands can review proof"))
    else if aid !in apps then Some(ApiError(404, "Application not found"))
    else if apps[aid].campaign !in campaigns then Some(InternalError)
    else
      var a := apps[aid];
      var c := campaigns[a.campaign];
      if c.brand != caller.id then Some(ApiError(403, "Not authorized"))
      else if a.status != ProofSubmitted then Some(ApiError(400, "Proof not submitted yet"))
      else if a.reviewDueAt.Some? && now > a.reviewDueAt.value then Some(ApiError(400, "Review window expired"))
      else if !EscrowFunded(c) then Some(ApiError(400, "Campaign is not funded for escrow yet"))
      else None
  }

  /**
   * The brand approves or rejects the submitted proof of one of its campaigns, inside the review
   * window and only once the payment is held or taken. Approval captures a held payment;
   * rejection disputes the application and releases the escrow (`ans` are the processor's
   * answers to that release).
   */
  method ReviewProof(db: Db, caller: Caller, aid: Id, approve: bool, reason: Option<string>,
                     ans: ReleaseAnswers, now: Millis)
    returns (r: Result<(Application, Campaign)>)
    requires db.Valid()
    modifies db, db.processor
    ensures db.Valid()
    ensures var e := ReviewCheck(old(db.campaigns), old(db.applications), caller, aid, now);
            e.Some? ==> && r == Err(e.value)
                        && db.applications == old(db.applications) && db.campaigns == old(db.campaigns)
                        && db.processor.log == old(db.processor.log)
    ensures r.Ok? <==> ReviewAllowed(old(db.campaigns), old(db.applications), caller, aid, now)
    ensures r.Ok? && approve ==>
              var cid := old(db.applications)[aid].campaign;
              var out := Approval(cid, old(db.campaigns)[cid], now);
              && db.applications == old(db.applications)[aid := ApprovedAt(old(db.applications)[aid], now)]
              && db.campaigns == old(db.campaigns)[cid := out.0]
              && db.processor.log == old(db.processor.log) + out.1
              && r.value == (db.applications[aid], out.0)
    ensures r.Ok? && !approve ==>
              var cid := old(db.applications)[aid].campaign;
              var out := Release(cid, old(db.campaigns)[cid], ans, now);
              && db.applications == old(db.applications)[aid := DisputedFor(old(db.applications)[aid], reason)]
              && db.campaigns == old(db.campaigns)[cid := out.0]
              && db.processor.log == old(db.processor.log) + out.1
              && r.value == (db.applications[aid], out.0)
    ensures db.campaignOrder == old(db.campaignOrder) && db.applicationOrder == old(db.applicationOrder)
    ensures Evolved(old(db.campaigns), db.campaigns) && AppsEvolved(old(db.applications), db.applications)
    ensures db.deals == old(db.deals) && db.profiles == old(db.profiles) && db.payoutAccounts == old(db.payoutAccounts)
  {
    var e := ReviewCheck(db.campaigns, db.applications, caller, aid, now);
    if e.Some? {
      return Err(e.value);
    }
    if approve {
      r := Approve(db, caller, aid, now);
    } else {
      r := Reject(db, caller, aid, reason, ans, now);
    }
  }

  /** The approval branch of `ReviewProof`. */
  method Approve(db: Db, caller: Caller, aid: Id, now: Millis) returns (r: Result<(Application, Campaign)>)
    requires db.Valid() && ReviewAllowed(db.campaigns, db.applications, caller, aid, now)
    modifies db, db.processor
    ensures db.Valid() && r.Ok?
    ensures db.deals == old(db.deals) && db.profiles == old(db.profiles) && db.payoutAccounts == old(db.payoutAccounts)
    ensures var cid := old(db.applications)[aid].campaign;
            var out := Approval(cid, old(db.campaigns)[cid], now);
            && db.applications == old(db.applications)[aid := ApprovedAt(old(db.applications)[aid], now)]
            && db.campaigns == old(db.campaigns)[cid := out.0]
            && db.processor.log == old(db.processor.log) + out.1
            && r.value == (db.applications[aid], out.0)
    ensures db.campaignOrder == old(db.campaignOrder) && db.applicationOrder == old(db.applicationOrder)
    ensures Evolved(old(db.campaigns), db.campaigns) && AppsEvolved(old(db.applications), db.applications)
  {
    var a := db.applications[aid];
    var cid := a.campaign;
    var b := ApprovedAt(a, now);
    db.SaveApplication(aid, b);
    var d := CaptureHeld(db, cid, now);
    r := Ok((b, d));
  }

  /**
   * The campaign side of an approval: a held payment is captured under the capture key and the
   * campaign records it; any other payment is left as it is.
   */
  method CaptureHeld(db: Db, cid: Id, now: Millis) returns (d: Campaign)
    requires db.Valid() && cid in db.campaigns && db.campaigns[cid].paymentIntentId.Some?
    modifies db, db.processor
    ensures db.Valid()
    ensures var out := Approval(cid, old(db.campaigns)[cid], now);
            && d == out.0
            && db.campaigns == old(db.campaigns)[cid := d]
            && db.processor.log == old(db.processor.log) + out.1
    ensures db.applications == old(db.applications)
    ensures db.campaignOrder == old(db.campaignOrder) && db.applicationOrder == old(db.applicationOrder)
    ensures db.deals == old(db.deals) && db.profiles == old(db.profiles) && db.payoutAccounts == old(db.payoutAccounts)
    ensures Evolved(old(db.campaigns), db.campaigns)
  {
    var c := db.campaigns[cid];
    var out := Approval(cid, c, now);
    ApprovalKeepsInv(db.campaigns, db.campaignOrder, db.applications, db.applicationOrder, db.processor.log,
                     cid, now, db.campaigns[cid := out.0], db.processor.log + out.1);
    if c.paymentStatus == RequiresCapture {
      db.processor.Capture(c.paymentIntentId.value, Key(Capture, cid));
      db.campaigns := db.campaigns[cid := StripeController.SetCaptured(c, now)];
    } else {
      assert db.campaigns[cid := c] == db.campaigns;
    }
    d := out.0;
  }

  /** An approval that passed the review's guards keeps the store invariant and undoes nothing. */
  lemma {:induction false} ApproveKeepsInv(cs: map<Id, Campaign>, corder: seq<Id>, apps: map<Id, Application>,
                                           aorder: seq<Id>, log: seq<Call>, aid: Id, now: Millis,
                                           cs': map<Id, Campaign>, apps': map<Id, Application>, log': seq<Call>)
    requires Inv(cs, corder, apps, aorder, log)
    requires aid in apps && apps[aid].status == ProofSubmitted
    requires apps[aid].campaign in cs && cs[apps[aid].campaign].paymentIntentId.Some?
    requires apps' == apps[aid := ApprovedAt(apps[aid], now)]
    requires var cid := apps[aid].campaign;
             cs' == cs[cid := Approval(cid, cs[cid], now).0] && log' == log + Approval(cid, cs[cid], now).1
    ensures Inv(cs', corder, apps', aorder, log') && Evolved(cs, cs') && AppsEvolved(apps, apps')
  {
    RewriteAppKeepsInv(cs, corder, apps, aorder, log, aid, ApprovedAt(apps[aid], now), apps');
    ApprovalKeepsInv(cs, corder, apps', aorder, log, apps[aid].campaign, now, cs', log');
  }

  /** The campaign side of an approval: capturing a held payment keeps the store invariant. */
  lemma {:induction false} ApprovalKeepsInv(cs: map<Id, Campaign>, corder: seq<Id>, apps: map<Id, Application>,
                                            aorder: seq<Id>, log: seq<Call>, cid: Id, now: Millis,
                                            cs': map<Id, Campaign>, log': seq<Call>)
    requires Inv(cs, corder, apps, aorder, log) && cid in cs && cs[cid].paymentIntentId.Some?
    requires cs' == cs[cid := Approval(cid, cs[cid], now).0] && log' == log + Approval(cid, cs[cid], now).1
    ensures Inv(cs', corder, apps, aorder, log') && Evolved(cs, cs')
  {
    var out := Approval(cid, cs[cid], now);
    assert Settled(cs[cid], out.0);
    QuietRewriteKeepsInv(cs, corder, apps, aorder, log, cid, out.0, out.1, cs', log');
  }

  /** The rejection branch of `ReviewProof`: dispute, then release the escrow. */
  method Reject(db: Db, caller: Caller, aid: Id, reason: Option<string>, ans: ReleaseAnswers, now: Millis)
    returns (r: Result<(Application, Campaign)>)
    requires db.Valid() && ReviewAllowed(db.campaigns, db.applications, caller, aid, now)
    modifies db, db.processor
    ensures db.Valid() && r.Ok?
    ensures var cid := old(db.applications)[aid].campaign;
            var out := Release(cid, old(db.campaigns)[cid], ans, now);
            && db.applications == old(db.applications)[aid := DisputedFor(old(db.applications)[aid], reason)]
            && db.campaigns == old(db.campaigns)[cid := out.0]
            && db.processor.log == old(db.processor.log) + out.1
            && r.value == (db.applications[aid], out.0)
    ensures db.campaignOrder == old(db.campaignOrder) && db.applicationOrder == old(db.applicationOrder)
    ensures Evolved(old(db.campaigns), db.campaigns) && AppsEvolved(old(db.applications), db.applications)
    ensures db.deals == old(db.deals) && db.profiles == old(db.profiles) && db.payoutAccounts == old(db.payoutAccounts)
  {
    var a := db.applications[aid];
    var cid := a.campaign;
    var b := DisputedFor(a, reason);
    db.SaveApplication(aid, b);
    ReleaseEscrowFunds(db, cid, ans, now);
    ReleaseKeepsInv(old(db.campaigns), db.campaignOrder, db.applications, db.applicationOrder, old(db.processor.log), cid, ans, now);
    r := Ok((b, db.campaigns[cid]));
  }
}
