# RentMyHeader escrow lifecycle, in Dafny

RentMyHeader is a marketplace where brands rent space on influencers' social profiles:
a profile header, a bio line or a post. A brand opens a **campaign**. Influencers send
**applications**. The brand selects one application, which fixes the campaign's price and
books the influencer's dates. The brand then pays into escrow through the payment
processor, as a manual-capture payment intent.

After that, the selected influencer submits proof and the brand reviews it. Approval
captures the held payment. Rejection unwinds the escrow, by cancelling the hold or refunding
the payment. A periodic reconciliation sweep handles what nobody acts on:

- it activates campaigns whose start has come;
- it fails overdue proofs and unwinds their escrow;
- it approves overdue reviews;
- it pays the influencer once an approved campaign has ended.

A legacy **deal** flow books an asset directly at the profile's day price.

The project models these state machines and the handlers that move them:

- the campaign status, with six values;
- the campaign payment status, with nine values;
- the application status, with ten values;
- the deal status, with nine values.

It also models the idempotency keys sent to the processor. Documents are datatypes. The
database is the class `Db.Db`, whose maps the handler methods reassign. The processor is the
class `PaymentProcessor.Processor`, which only logs the calls made to it. What the processor
answers is a parameter of each handler.

The model proves these properties of the system:

- the store invariant, kept by every handler and by the sweep. It has five parts:
  - each collection's insertion order lists exactly its stored documents, each once;
  - one application per (campaign, influencer) pair;
  - every application's campaign exists;
  - a campaign's selection agrees with its applications;
  - no campaign is refunded twice or paid out twice.
- that nothing a handler does is undone later: a price snapshot, a selection, a refund or
  payout handle, a cancellation;
- that the handlers, the webhook and the sweep can be repeated safely. A second release
  refunds nothing, and a second payment creates no second intent. A redelivered webhook
  event changes nothing but the capture or refund timestamp, which moves to the later
  delivery. A second sweep at the same instant does nothing and reports zeros.

Behaviour of the source that the model reproduces on purpose:

- **Overlap bounds are inclusive.** Two booking windows meet when one ends at the very
  millisecond the other starts. This holds both for campaign selection and for deals.
- **Idempotency keys differ by caller.** The payment handlers and `releaseEscrowFunds` use the
  `escrow_…` keys. The sweep builds its own `cancel_…`, `refund_…` and `transfer_…` keys. A
  sweep call and a handler call for the same operation on the same campaign therefore never
  share a key (`EscrowKeys.SweepKeyNeverEscrowKey`). That is why the no-double-refund
  invariant counts refunds under both key families.
- **Late hold events regress a capture.** The webhook does not order events. A hold-placed
  event delivered after the succeeded event sets a captured payment back to
  `requires_capture` (`StripeController.LateHoldUndoesCapture`).
- **A refund event can cancel a completed campaign.** The refunded-charge handler cancels a
  campaign in any status.
- **A redelivered capture or refund event re-stamps its time.** Handling the succeeded event
  or the refunded-charge event again sets `capturedAt` or `refundedAt` to the instant of the
  new delivery. Every other webhook event changes nothing when it comes again.
- **Lengths are JavaScript lengths.** The requirements minimum and the proof-notes maximum
  count UTF-16 code units, so a character above U+FFFF counts twice. The proof URL and notes
  are trimmed before the notes are measured, and the trimmed values are stored.
- **`mapPaymentIntentStatus` never yields `succeeded`.** It maps the processor's `succeeded`
  to `captured`. The model states the exact image of the mapping.
- **A new payment intent reuses its key.** Paying again after a terminal payment status
  creates an intent under the same `escrow_pi_…` key as the first one.
- **The cover message is never stored.** The application schema has no `coverMessage` field.
  Mongoose drops it on create and on save.
- **A second selection answers 400.** Selecting a campaign that is no longer open answers
  400 "Campaign is not open". The 409 "Campaign already selected by someone else" of the
  conditional update needs a concurrent selection between the guards and the update. The
  model runs each request as one step, so that branch cannot be reached.

## Model

| member | source | states |
|---|---|---|
| EscrowKeys.Key | server/src/lib/stripeEscrow.ts:1-7 | a key is the operation's fixed prefix followed by the campaign id, and nothing else |
| EscrowKeys.ParseKey | server/src/lib/stripeEscrow.ts:2-6 | reading a derived key back gives its operation and its campaign id |
| EscrowKeys.PrefixesExclusive | server/src/lib/stripeEscrow.ts:2-6 | a key of one operation never starts with another operation's prefix |
| EscrowKeys.KeyInjective | server/src/lib/stripeEscrow.ts:2-6 | two keys are equal only when both the operation and the campaign are |
| EscrowKeys.KeysDistinctByOperation | server/src/lib/stripeEscrow.ts:2-6 | on one campaign, different operations have different keys |
| EscrowKeys.KeysDistinctByCampaign | server/src/lib/stripeEscrow.ts:2-6 | for one operation, different campaigns have different keys |
| EscrowKeys.SweepKey | server/src/services/automation.service.ts:51-67 | the sweep's key is its own prefix (`cancel_`, `refund_`, `transfer_`) followed by the campaign id |
| EscrowKeys.SweepKeyInjective | server/src/services/automation.service.ts:121-132 | sweep keys determine their operation and campaign |
| EscrowKeys.SweepKeyNeverEscrowKey | server/src/services/automation.service.ts:46-68 | no sweep key equals any handler key, whatever the campaigns |
| JsString.Length | server/src/controllers/campaign.controller.ts:17 | JavaScript's `length`: at least the number of characters and at most twice it, and equal to it when no character is above U+FFFF |
| JsString.LengthAppend | server/src/controllers/campaign.controller.ts:17 | the length of a concatenation is the sum of the lengths |
| JsString.LeadingSpaces | server/src/controllers/application.controller.ts:140-141 | the characters before the count are all whitespace, and the one at the count is not |
| JsString.TrailingSpaces | server/src/controllers/application.controller.ts:140-141 | the characters after the count from the end are all whitespace, and the one before them is not |
| JsString.Trim | server/src/controllers/application.controller.ts:140-141 | `trim`: neither end of the result is whitespace; the result is empty exactly when the string is all whitespace; a string without outer whitespace is returned as it is |
| JsString.TrimPadded | server/src/controllers/application.controller.ts:140-141 | trimming a trimmed string padded with whitespace on both sides gives the string back |
| Common.JsRound | server/src/controllers/stripe.controller.ts:14 | `Math.round`: the result is within one half of the argument, and halves round up |
| CampaignModel.NewCampaign | server/src/models/Campaign.ts:3-84 | a new campaign is open, with payment status `none`, no snapshot, selection or processor handle, and currency "usd"; it keeps the given fields |
| ApplicationModel.NewApplication | server/src/models/Application.ts:3-50 | a new application is `applied`, with every proof, deadline, approval and rejection field null |
| ApplicationModel.InsertKeepsOnePerPair | server/src/models/Application.ts:52-53 | adding an application for a pair that has none keeps one application per (campaign, influencer) |
| ApplicationModel.RelabelKeepsOnePerPair | server/src/models/Application.ts:52-53 | rewriting applications without touching campaign or influencer keeps the pair unique |
| DealModel.DurationDays | server/src/controllers/deal.controller.ts:54-55 | the number of started days: at least one, the window is longer than one day fewer and at most that many days |
| DealModel.Price | server/src/controllers/deal.controller.ts:57-61 | total is days × day price; commission and influencer part add up to the total; the influencer keeps 85% |
| DealModel.BlocksBounds | server/src/controllers/deal.controller.ts:41-47 | a rejected or cancelled deal never blocks; a live deal ending exactly when the request starts does |
| Overlap.FindConflict | server/src/services/overlap.service.ts:4-25 | the result is null exactly when no campaign passes every filter; otherwise it is a campaign of the collection that books the influencer in a booking status, meets the window, and is not the excluded one |
| Overlap.FindConflictIsFirst | server/src/services/overlap.service.ts:23 | `findOne` returns the first match in collection order |
| Overlap.WindowsMeetSymmetric | server/src/services/overlap.service.ts:15-16 | whether two windows meet does not depend on their order |
| Overlap.TouchingWindowsMeet | server/src/services/overlap.service.ts:15-16 | a window ending at the instant another starts meets it, both ways |
| Overlap.OnlyBookingsConflict | server/src/services/overlap.service.ts:14 | open, completed and cancelled campaigns never conflict |
| EscrowService.Release | server/src/services/escrow.service.ts:4-69 | no intent means no change and no call; otherwise the campaign is unchanged or cancelled with payment canceled or refunded; only status, payment status and refund fields change, and a recorded refund id is kept |
| EscrowService.Unwind | server/src/services/escrow.service.ts:26-68 | after any cancel attempt: the intent is retrieved first; the same outcomes and kept fields as a release |
| EscrowService.ReleaseCalls | server/src/services/escrow.service.ts:9-68 | a release never captures, creates an intent or transfers; a cancel only of a held payment under the cancel key; a refund only as the last call, under the refund key, when no refund is recorded or listed, and its id is recorded; a successful cancel or a canceled intent cancels without refunding |
| EscrowService.ReleaseTwiceRefundsOnce | server/src/services/escrow.service.ts:39-68 | whatever the processor answers, two releases of a campaign create at most one refund |
| EscrowService.ReleaseSettles | server/src/services/escrow.service.ts:26-41 | after a release that cancelled, a second one that sees the intent canceled changes nothing and refunds nothing; after one that refunded, a second one only retrieves the intent |
| EscrowService.ReleaseKeepsInv | server/src/services/escrow.service.ts:4-69 | a release keeps the store invariant and undoes nothing |
| EscrowService.ReleaseEscrowFunds | server/src/services/escrow.service.ts:4-69 | the campaign and processor log afterwards are those `Release` gives; nothing else changes |
| EscrowService.UnwindEscrow | server/src/services/escrow.service.ts:26-68 | the campaign and processor log afterwards are those `Unwind` gives |
| CampaignController.PriceSnapshot | server/src/controllers/campaign.controller.ts:127-141 | total is the proposed price; commission is total × rate; the two parts add up to the total and, for a non-negative price, lie between 0 and the total |
| CampaignController.RejectSiblings | server/src/controllers/campaign.controller.ts:157-160 | exactly the other `applied` applications of the campaign become `rejected`; nothing else changes |
| CampaignController.Selected | server/src/controllers/campaign.controller.ts:132-146 | the selected campaign records influencer, application, time and snapshot, becomes `influencer_selected`, and keeps every other field |
| CampaignController.CreateCampaign | server/src/controllers/campaign.controller.ts:22-45 | 403 for a non-brand, a validation error for requirements shorter than 10 UTF-16 code units, 400 for `end <= start`; success exactly when every check passes, adding the new open campaign and nothing else; keeps the invariant; deals, profiles and payout accounts are unchanged |
| CampaignController.SelectInfluencer | server/src/controllers/campaign.controller.ts:80-163 | each guard's error in order (role, missing campaign, ownership, a campaign not open, missing application, an application of another campaign, an application not `applied`), then 409 naming the first conflicting campaign; success exactly when every guard passes and there is no conflict; on success the campaign, the chosen application and the rejected siblings; on error nothing changes; keeps the invariant; deals, profiles and payout accounts are unchanged |
| CampaignController.CommitSelection | server/src/controllers/campaign.controller.ts:132-160 | the writes of a selection: the campaign update, then the chosen application and the sibling rejection; deals, profiles and payout accounts are unchanged |
| CampaignController.SelectKeepsInv | server/src/controllers/campaign.controller.ts:132-160 | a selection that passed its guards keeps the invariant and undoes nothing |
| ApplicationController.ApplyToCampaign | server/src/controllers/application.controller.ts:19-62 | each guard's error in order (role, price below 1, missing campaign, a campaign not open, missing profile, a profile not the caller's, an earlier application); success exactly when the caller is an influencer, the price is at least 1, the campaign is open, the profile is the caller's and there is no earlier application; the new application is stored and appended; keeps the invariant; deals, profiles and payout accounts are unchanged |
| ApplicationController.Edited | server/src/controllers/application.controller.ts:90-94 | only a supplied price is changed |
| ApplicationController.UpdateApplication | server/src/controllers/application.controller.ts:69-100 | errors for role, missing application, ownership, a status past `applied` and a supplied price below 1; success exactly when allowed, storing the edited application; deals, profiles and payout accounts are unchanged |
| ApplicationController.ProofRecorded | server/src/controllers/application.controller.ts:176-182 | proof submitted now, review due one day later, URL and notes stored, nothing else changed |
| ApplicationController.TrimmedNotes | server/src/controllers/application.controller.ts:141 | notes are present after validation exactly when sent, and then trimmed |
| ApplicationController.SubmitProof | server/src/controllers/application.controller.ts:144-187 | each guard's error in order: role, trimmed notes longer than 1000 UTF-16 code units, missing application, ownership, an application not selected, proof already submitted, a campaign not active and an expired window; success exactly when selected, not yet submitted, the campaign is active and `now` is not past the deadline; the trimmed URL and notes are stored; deals, profiles and payout accounts are unchanged |
| ApplicationController.ApprovedAt | server/src/controllers/application.controller.ts:231-232 | approved, at `now`, nothing else changed |
| ApplicationController.DisputedFor | server/src/controllers/application.controller.ts:253-254 | disputed, with the given reason or "Proof rejected" |
| ApplicationController.Approval | server/src/controllers/application.controller.ts:237-247 | a held payment is captured under the capture key and recorded as `setCampaignCaptured` records it; any other payment is left as it is and no call is made |
| ApplicationController.ApprovalCapturesOnce | server/src/controllers/application.controller.ts:237-247 | approving again captures nothing; an approval makes at most one call, a capture, and does not change the campaign status |
| ApplicationController.ReviewCheck | server/src/controllers/application.controller.ts:194-225 | the review guards in the handler's order with their errors; no error exactly when the review is allowed |
| ApplicationController.ReviewProof | server/src/controllers/application.controller.ts:194-262 | a guard failure changes nothing; otherwise approval or rejection with its writes and calls; keeps the invariant; deals, profiles and payout accounts are unchanged |
| Db.Db.SaveApplication | server/src/controllers/application.controller.ts:184 | saving a rewritten application that keeps its campaign, influencer and chosen-ness keeps the invariant and changes nothing else |
| ApplicationController.Approve | server/src/controllers/application.controller.ts:227-250 | the application approved now, the campaign and calls `Approval` gives; deals, profiles and payout accounts are unchanged |
| ApplicationController.CaptureHeld | server/src/controllers/application.controller.ts:237-247 | the campaign and calls `Approval` gives; keeps the invariant; deals, profiles and payout accounts are unchanged |
| ApplicationController.ApproveKeepsInv | server/src/controllers/application.controller.ts:227-249 | an approval keeps the invariant and undoes nothing |
| ApplicationController.Reject | server/src/controllers/application.controller.ts:252-261 | the application disputed, then the escrow released as `Release` says; deals, profiles and payout accounts are unchanged |
| StripeController.ToStripeAmount | server/src/controllers/stripe.controller.ts:13-20 | accepted exactly when the amount is at least half a cent, so that the rounded cents are positive; the cents are within half a cent of amount × 100; otherwise 400 |
| StripeController.MapIntentStatus | server/src/controllers/stripe.controller.ts:23-40 | each processor status's image, both directions; the mapping never yields none, succeeded, refunded or failed |
| StripeController.PayCheck | server/src/controllers/stripe.controller.ts:77-96 | the payment guards in order with their errors; none exactly when the payment is allowed |
| StripeController.Pay | server/src/controllers/stripe.controller.ts:98-133 | a live intent is resumed, and a new one created only when the total is at least half a cent; otherwise the amount's 400 |
| StripeController.PayCalls | server/src/controllers/stripe.controller.ts:98-133 | at most one call, a retrieval or a creation; an intent is created only with no live intent, for the total in cents, under the payment-intent key; only the intent handle and payment status change |
| StripeController.PayTwiceCreatesOnce | server/src/controllers/stripe.controller.ts:98-113 | after a payment that left a live intent, paying again resumes that intent and creates none |
| StripeController.PayKeepsInv | server/src/controllers/stripe.controller.ts:98-133 | a payment keeps the invariant and undoes nothing |
| StripeController.PayForCampaign | server/src/controllers/stripe.controller.ts:77-141 | a guard failure changes nothing; otherwise the reply, campaign and calls `Pay` gives; keeps the invariant; deals, profiles and payout accounts are unchanged |
| StripeController.EventIntent | server/src/controllers/stripe.controller.ts:214-238 | the intent each event type refers to; none for unknown events |
| StripeController.FindByIntent | server/src/controllers/stripe.controller.ts:143-145 | a found campaign holds the intent; none exactly when no campaign does |
| StripeController.FindByIntentStable | server/src/controllers/stripe.controller.ts:143-145 | the lookup depends only on the campaigns' intent handles |
| StripeController.SetFunded | server/src/controllers/stripe.controller.ts:143-153 | a hold: `influencer_selected` becomes `funded`, others keep their status; payment `requires_capture` |
| StripeController.SetCaptured | server/src/controllers/stripe.controller.ts:155-162 | captured, at `now` |
| StripeController.SetFailed | server/src/controllers/stripe.controller.ts:164-174 | failed; `funded` rolls back to `influencer_selected` |
| StripeController.SetCanceled | server/src/controllers/stripe.controller.ts:176-186 | canceled; `funded` and `influencer_selected` become `cancelled` |
| StripeController.SetRefunded | server/src/controllers/stripe.controller.ts:188-198 | refunded now and cancelled, whatever the status |
| StripeController.Handle | server/src/controllers/stripe.controller.ts:214-238 | an unknown event changes nothing; no handler touches the intent, refund or payout handle or the price |
| StripeController.HandleSettles | server/src/controllers/stripe.controller.ts:143-198 | no event handler changes a handle, the selection or the price, reopens a campaign or revives a cancelled one |
| StripeController.HandleTwiceIsOnce | server/src/controllers/stripe.controller.ts:143-198 | handling an event again at any later instant is handling it once at that instant; only the succeeded and refunded handlers differ from the first handling, in `capturedAt` or `refundedAt` |
| StripeController.LateHoldUndoesCapture | server/src/controllers/stripe.controller.ts:143-162 | a hold event after a succeeded event sets the payment back to `requires_capture` |
| StripeController.Deliver | server/src/controllers/stripe.controller.ts:214-238 | only the first campaign holding the event's intent can change |
| StripeController.DeliverTwiceIsOnce | server/src/controllers/stripe.controller.ts:143-198 | delivering the same event again at any later instant leaves the store as one delivery at that instant does; compared with the first delivery, only a capture or refund timestamp differs |
| StripeController.DeliverKeepsInv | server/src/controllers/stripe.controller.ts:214-238 | a delivered event keeps the invariant and undoes nothing |
| StripeController.HandleEvent | server/src/controllers/stripe.controller.ts:214-238 | the campaigns afterwards are those `Deliver` gives; nothing else changes; deals, profiles and payout accounts are unchanged |
| StripeController.StripeWebhook | server/src/controllers/stripe.controller.ts:200-244 | 400 without a signature or with one that does not verify, changing nothing; otherwise the event is delivered and acknowledged; keeps the invariant; deals, profiles and payout accounts are unchanged |
| DealController.NewDeal | server/src/controllers/deal.controller.ts:53-74 | a pending deal for the profile's owner, priced by started days at the asset's day price, with a 15% commission |
| DealController.AddDealKeepsDisjoint | server/src/controllers/deal.controller.ts:40-51 | storing a deal that no live deal blocks keeps live deals on one asset disjoint |
| DealController.CreateDeal | server/src/controllers/deal.controller.ts:17-77 | errors for role, a missing profile, `end <= start` and an overlapping live deal; success exactly when every check passes, storing the new deal; live deals stay disjoint; campaigns, applications, their orders, profiles and payout accounts are unchanged, so the store invariant is kept |
| DealController.Responded | server/src/controllers/deal.controller.ts:102 | accepted or rejected, nothing else changed |
| DealController.RespondKeepsDisjoint | server/src/controllers/deal.controller.ts:98-102 | answering a pending deal keeps live deals disjoint |
| DealController.RespondToDeal | server/src/controllers/deal.controller.ts:82-107 | 404, 403 for anyone but the deal's influencer, 400 unless pending; success exactly when allowed, storing the answered deal; campaigns, applications, their orders, profiles and payout accounts are unchanged, so the store invariant is kept |
| AutomationModel.Selects | server/src/services/automation.service.ts:12-15 | the four queries of the sweep (lines 12-15, 36-40, 87-90, 103-107); a campaign query selects only stored campaigns, an application query only stored applications |
| AutomationModel.Find | server/src/services/automation.service.ts:12-15 | a query's result holds exactly the documents of the collection that satisfy it, without duplicates |
| AutomationModel.FindNothing | server/src/services/automation.service.ts:103-107 | a query no document satisfies finds nothing |
| AutomationModel.Activate | server/src/services/automation.service.ts:17-31 | activation keeps the processor log and every document id |
| AutomationModel.Unwound | server/src/services/automation.service.ts:46-75 | unwinding keeps the intent, payout and selection handles and the price, keeps a recorded refund, and makes only cancel and refund calls |
| AutomationModel.UnwoundCalls | server/src/services/automation.service.ts:46-75 | pass 2 cancels a held payment under the sweep's cancel key and then does not refund it; otherwise it refunds a taken payment with no refund recorded once, under the sweep's refund key; any other campaign is left as it is |
| AutomationModel.FailProof | server/src/services/automation.service.ts:42-82 | failing an overdue proof keeps every document id |
| AutomationModel.AutoApprove | server/src/services/automation.service.ts:92-98 | an automatic approval leaves campaigns and the processor log as they are |
| AutomationModel.Payable | server/src/services/automation.service.ts:112-119 | a held payment is never payable, and neither is a campaign without a selection |
| AutomationModel.PayoutCents | server/src/services/automation.service.ts:123 | the influencer's part in cents, within half a cent, or 0 without a price snapshot |
| AutomationModel.PayOut | server/src/services/automation.service.ts:111-145 | a transfer happens exactly when the application is approved, the influencer has a payout account and the payment is taken; otherwise nothing changes |
| AutomationModel.PayAll | server/src/services/automation.service.ts:109-145 | pass 4 over a batch keeps every document id and counts at most one transfer per campaign of the batch |
| AutomationModel.ActivateKeepsInv | server/src/services/automation.service.ts:17-31 | activating a due campaign keeps the invariant |
| AutomationModel.FailProofKeepsInv | server/src/services/automation.service.ts:42-82 | failing an overdue proof keeps the invariant, including no second refund |
| AutomationModel.AutoApproveKeepsInv | server/src/services/automation.service.ts:92-98 | an automatic approval keeps the invariant |
| AutomationModel.PayOutKeepsInv | server/src/services/automation.service.ts:111-145 | a payout keeps the invariant, including no second transfer |
| AutomationModel.Sweep | server/src/services/automation.service.ts:6-154 | the four passes in order, each on the state the previous one left; no document is created or deleted, and each count is at most the size of its collection |
| AutomationModel.SweepKeepsInv | server/src/services/automation.service.ts:6-154 | the whole sweep keeps the invariant |
| AutomationModel.ActivateSelects | server/src/services/automation.service.ts:12-31 | an activated campaign is no longer due, and activation makes no other campaign due |
| AutomationModel.FailProofSelects | server/src/services/automation.service.ts:36-82 | a failed proof is no longer overdue, and failing it makes nothing else overdue or due |
| AutomationModel.AutoApproveSelects | server/src/services/automation.service.ts:87-98 | an approved review is no longer overdue, and approving makes no proof overdue |
| AutomationModel.PayOutSelects | server/src/services/automation.service.ts:103-145 | a payout makes no document newly selected by any query |
| AutomationModel.ActivateAllSelects | server/src/services/automation.service.ts:12-31 | after pass 1 over a prefix of its batch, every campaign still due was due before and is not in that prefix |
| AutomationModel.FailAllSelects | server/src/services/automation.service.ts:36-82 | after pass 2 over a prefix of its batch, every overdue proof was overdue before and is not in that prefix; no campaign becomes due; every application keeps its campaign |
| AutomationModel.ApproveAllSelects | server/src/services/automation.service.ts:87-98 | after pass 3 over a prefix of its batch, every overdue review was overdue before and is not in that prefix; no proof becomes overdue |
| AutomationModel.PayAllSelects | server/src/services/automation.service.ts:103-145 | after pass 4 nothing is newly selected, and every campaign of the batch is paid out or not payable |
| AutomationModel.PayAllIdle | server/src/services/automation.service.ts:111-119 | pass 4 over campaigns none of which is payable changes nothing and counts zero |
| AutomationModel.SweepSettles | server/src/services/automation.service.ts:6-154 | after one sweep, no campaign is due to start, no proof or review is overdue, and no releasable campaign is payable |
| AutomationModel.QuiescentSweepIsIdle | server/src/services/automation.service.ts:6-154 | a sweep over such a state changes nothing and reports zero in every count |
| AutomationModel.SweepTwiceIsOnce | server/src/services/automation.service.ts:6-154 | a second sweep at the same instant changes nothing, calls the processor for nothing and reports zeros |
| AutomationService.ActivateOne | server/src/services/automation.service.ts:17-31 | the state afterwards is `Activate` of the state before |
| AutomationService.FailOne | server/src/services/automation.service.ts:42-82 | the state afterwards is `FailProof` of the state before |
| AutomationService.ApproveOne | server/src/services/automation.service.ts:92-98 | the state afterwards is `AutoApprove` of the state before |
| AutomationService.PayOutOne | server/src/services/automation.service.ts:111-145 | the state and the transfer flag are those `PayOut` gives |
| AutomationService.ActivateCampaigns | server/src/services/automation.service.ts:12-31 | pass 1 activates its query's result in order and counts it |
| AutomationService.FailOverdueProofs | server/src/services/automation.service.ts:36-82 | pass 2 fails its query's result in order and counts it |
| AutomationService.ApproveOverdueReviews | server/src/services/automation.service.ts:87-98 | pass 3 approves its query's result in order and counts it |
| AutomationService.ReleaseEndedCampaigns | server/src/services/automation.service.ts:103-145 | pass 4 pays out its query's result in order and counts only the transfers made |
| AutomationService.RunAutomation | server/src/services/automation.service.ts:6-154 | the four passes in order with their counts, as `Sweep` gives; keeps the invariant |

## Left out

- Processor I/O: every call to the payment processor only appends to a log, and its answers
  are parameters. Those answers are intent statuses, listed refunds, created ids, and whether
  the cancel in a release succeeds. Webhook signature verification is a parameter too.
- Processor exceptions: a capture, create, refund or transfer that throws is not modelled,
  and calls other than the release's cancel always succeed. The sweep has no per-item
  `try`/`catch`, so in the source a failing call aborts the rest of the sweep. The model
  does not capture that.
- AutomationService.RunAutomation: does not model processor failures in the middle of a pass.
- ApplicationController.ReviewProof: a capture that throws after the application is saved
  as approved would leave it approved with the payment still held. This is not modelled.
- Persistence: collections are in-memory maps, plus the insertion order that unsorted `find`
  and `findOne` visit. The conditional `findOneAndUpdate` of a selection is one atomic step.
- Concurrency: every handler and the sweep run as one sequential step. Racing requests,
  webhooks and the cron schedule are not modelled. Of the race guard in `selectInfluencer`,
  only its re-check inside the same step is kept.
- Clock: every `new Date()` of a request or a sweep is one `now` parameter. The source reads
  the clock several times per request.
- Sweep snapshots: the source loops over documents as its query loaded them. The model reads
  the current documents instead. This is equivalent, because each step touches only its own
  campaign and application, and a batch has no duplicates.
- Money: amounts are exact rationals. The commission rate is a configuration value in [0, 1],
  and 0.15 for deals is exactly 15/100. Floating-point rounding of `total * rate` is not
  modelled. `Math.round` is modelled exactly, so the non-finite case of `toStripeAmount`
  cannot arise.
- Authentication: the caller is a (user id, role) pair taken as given.
- Request validation: zod schemas become the checks the core depends on, namely the
  requirements length, the minimum price, the trimming of the proof fields and the
  proof-notes length. Lengths are counted in UTF-16 code units, as JavaScript counts them. A failure is the error
  middleware's 400 "Validation error". URL validation of `proofUrl` and ObjectId format
  checks (400 "Invalid …") are not modelled, because ids are strings here.
- Date parsing: dates arrive as milliseconds. Unparseable dates, which give `Invalid Date`
  and fail every comparison, are not modelled.
- A duplicate-key write (a fresh id that is already used) answers 500 instead of storing.
  In the source, ids never collide.
- Payout accounts: a user's `stripeAccountId` is a map from user id to account id. A missing
  or empty id means no account.
- `createConnectAccount`, the listing handlers (`getBrandCampaigns`, `browseOpenCampaigns`,
  `getMyApplications`, `getCampaignApplicationsForBrand`), social-profile CRUD, email and the
  cron job are plumbing or read-only queries outside the escrow state machines.
- Deal statuses `funded`, `active`, `completed`, `released` and `disputed` exist in the
  schema, but no handler reaches them.
- AutomationModel.Activate: its own contract states only the frame; `ActivateSelects` and
  `ActivateKeepsInv` state what activation promises.
- AutomationModel.FailProof: its own contract states only the frame; `FailProofSelects`,
  `FailProofKeepsInv` and `UnwoundCalls` state what failing a proof promises.
- AutomationModel.AutoApprove: its own contract states only the frame; `AutoApproveSelects` and
  `AutoApproveKeepsInv` state what an automatic approval promises.
- AutomationModel.PayAll: its own contract bounds the count. That the count is exactly the
  number of transfers made holds by construction of the fold, and `PayOut` states when each
  transfer happens.
