/**
 * The booking-window guard: a campaign that has selected an influencer books that influencer
 * from its start date to its end date, and a new selection must not overlap such a booking.
 */
module Overlap {
  import opened Common
  import opened CampaignModel

  /** The statuses in which a campaign holds its influencer's dates. */
  predicate Booking(s: CampaignStatus) {
    s in {InfluencerSelected, Funded, Active}
  }

  /** Two windows share at least one instant; both bounds are inclusive. */
  predicate WindowsMeet(start1: Millis, end1: Millis, start2: Millis, end2: Millis) {
    start1 <= end2 && end1 >= start2
  }

  /** Campaign `c` is a booking of `influencer` that meets the window [start, end]. */
  predicate Conflicts(c: Campaign, influencer: Id, start: Millis, end: Millis) {
    && c.selectedInfluencer == Some(influencer)
    && Booking(c.status)
    && WindowsMeet(c.startDate, c.endDate, start, end)
  }

  /** The candidate `id` passes every filter of the query. */
  predicate Matches(campaigns: map<Id, Campaign>, id: Id, influencer: Id, start: Millis, end: Millis, exclude: Option<Id>) {
    id in campaigns && Conflicts(campaigns[id], influencer, start, end) && exclude != Some(id)
  }

  /**
   * The first campaign, in the collection's order `ids`, that books `influencer` on a day of
   * [start, end], other than `exclude`; `None` when there is none.
   */
  function FindConflict(ids: seq<Id>, campaigns: map<Id, Campaign>, influencer: Id,
                        start: Millis, end: Millis, exclude: Option<Id>): (r: Option<Id>)
    ensures r.Some? ==> r.value in ids && Matches(campaigns, r.value, influencer, start, end, exclude)
    ensures r.None? <==> forall i :: 0 <= i < |ids| ==> !Matches(campaigns, ids[i], influencer, start, end, exclude)
  {
    if ids == [] then None
    else if Matches(campaigns, ids[0], influencer, start, end, exclude) then Some(ids[0])
    else
      var r := FindConflict(ids[1..], campaigns, influencer, start, end, exclude);
      assert forall i :: 1 <= i < |ids| ==> ids[i] == ids[1..][i - 1];
      r
  }

  /** The search returns the first match: for every matching position, the result stands at or before it. */
  lemma {:induction false} FindConflictIsFirst(ids: seq<Id>, campaigns: map<Id, Campaign>, influencer: Id,
                                                start: Millis, end: Millis, exclude: Option<Id>, j: nat)
    requires j < |ids| && Matches(campaigns, ids[j], influencer, start, end, exclude)
    ensures FindConflict(ids, campaigns, influencer, start, end, exclude).Some?
    ensures FindConflict(ids, campaigns, influencer, start, end, exclude).value in ids[..j + 1]
  {
    if !Matches(campaigns, ids[0], influencer, start, end, exclude) {
      FindConflictIsFirst(ids[1..], campaigns, influencer, start, end, exclude, j - 1);
      var r := FindConflict(ids[1..], campaigns, influencer, start, end, exclude).value;
      var i :| 0 <= i < j && ids[1..][..j][i] == r;
      assert ids[..j + 1][i + 1] == r;
    }
  }

  /** Whether two windows meet does not depend on which one is the candidate. */
  lemma WindowsMeetSymmetric(start1: Millis, end1: Millis, start2: Millis, end2: Millis)
    ensures WindowsMeet(start1, end1, start2, end2) <==> WindowsMeet(start2, end2, start1, end1)
  {
  }

  /** Bounds are inclusive: a window ending at the very instant another starts meets it. */
  lemma TouchingWindowsMeet(start1: Millis, end1: Millis, start2: Millis, end2: Millis)
    requires start1 <= end1 == start2 <= end2
    ensures WindowsMeet(start1, end1, start2, end2) && WindowsMeet(start2, end2, start1, end1)
  {
  }

  /** Open, completed and cancelled campaigns never conflict, whatever their dates and influencer. */
  lemma OnlyBookingsConflict(c: Campaign, influencer: Id, start: Millis, end: Millis)
    requires c.status in {Open, Completed, Cancelled}
    ensures !Conflicts(c, influencer, start, end)
  {
  }
}
