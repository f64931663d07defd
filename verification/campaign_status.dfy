/** The campaign status updater of `src/lib/utils/campaignStatus.ts`: a
    running campaign with no active call becomes completed, and its
    processed count and actual seconds are refreshed from its calls. */
module CampaignStatuses {
  import opened Wrappers
  import opened Ordering
  import opened Store
  import opened CallStatuses

  /** The four campaign statuses, as stored. */
  const StatusDraft: string := "Draft"
  const StatusRunning: string := "Running"
  const StatusCompleted: string := "Completed"
  const StatusPaused: string := "Paused"

  /** The call belongs to the campaign (`include: { calls: true }`). */
  function InCampaign(cid: Id): Call -> bool {
    (c: Call) => c.campaignId == Some(cid)
  }

  /** The call belongs to the campaign and its status is an active one. */
  function ActiveIn(cid: Id): Call -> bool {
    (c: Call) => c.campaignId == Some(cid) && IsActiveText(c.callStatus)
  }

  /** Total seconds of the campaign's completed calls, a missing duration
      counting as zero. */
  function CompletedSeconds(calls: seq<Call>, cid: Id): int {
    if |calls| == 0 then 0
    else
      var c := calls[|calls| - 1];
      CompletedSeconds(calls[..|calls| - 1], cid)
      + (if c.campaignId == Some(cid) && IsCompletedText(c.callStatus) then c.durationInSeconds.GetOr(0) else 0)
  }

  /** `checkAndUpdateCampaignStatus`: no id (or id 0) and an unknown
      campaign give `null` and write nothing; otherwise the campaign's
      `actualSeconds` is set to its completed seconds, and a `Running`
      campaign with no active call becomes `Completed` with
      `processedLeads` set to its number of calls. Any other campaign keeps
      its status and processed count. */
  function CheckAndUpdate(db: Db, campaignId: Option<Id>): (r: (Db, Option<Campaign>))
    ensures r.1.None? ==> r.0 == db
    ensures campaignId.None? || campaignId == Some(0) ==> r.1.None?
    ensures campaignId.Some? && campaignId.value != 0 ==>
              (r.1.Some? <==> CampaignIndex(db.campaigns, campaignId.value).Some?)
    ensures r.1.Some? ==>
              var cid := campaignId.value;
              var k := CampaignIndex(db.campaigns, cid).value;
              var before := db.campaigns[k];
              var after := r.1.value;
              && r.0 == db.(campaigns := db.campaigns[k := after])
              && after == before.(status := after.status, processedLeads := after.processedLeads,
                                  actualSeconds := after.actualSeconds)
              && after.actualSeconds == CompletedSeconds(db.calls, cid)
              && (after.status == StatusCompleted <==>
                    before.status == StatusCompleted
                    || (before.status == StatusRunning && Count(db.calls, ActiveIn(cid)) == 0))
              && (after.status != before.status ==>
                    before.status == StatusRunning && after.processedLeads == Count(db.calls, InCampaign(cid)))
              && (after.status == before.status ==> after.processedLeads == before.processedLeads)
  {
    if campaignId.None? || campaignId.value == 0 then (db, None)
    else
      var cid := campaignId.value;
      match CampaignIndex(db.campaigns, cid)
      case None => (db, None)
      case Some(k) =>
        var campaign := db.campaigns[k];
        var finished := Count(db.calls, ActiveIn(cid)) == 0 && campaign.status == StatusRunning;
        var updated := campaign.(
          status := if finished then StatusCompleted else campaign.status,
          processedLeads := if finished then Count(db.calls, InCampaign(cid)) else campaign.processedLeads,
          actualSeconds := CompletedSeconds(db.calls, cid));
        (db.(campaigns := db.campaigns[k := updated]), Some(updated))
  }

  /** Checking a campaign twice in a row changes nothing the first check
      did not. */
  lemma CheckAndUpdateIdempotent(db: Db, campaignId: Option<Id>)
    ensures var first := CheckAndUpdate(db, campaignId);
            CheckAndUpdate(first.0, campaignId) == first
  {
    var first := CheckAndUpdate(db, campaignId);
    if first.1.Some? {
      var cid := campaignId.value;
      var k := CampaignIndex(db.campaigns, cid).value;
      assert CampaignIndex(first.0.campaigns, cid) == Some(k) by {
        assert first.0.campaigns[k].id == cid;
        assert forall j :: 0 <= j < k ==> first.0.campaigns[j] == db.campaigns[j];
      }
      assert first.0.campaigns[k := first.1.value] == first.0.campaigns;
    }
  }

  /** A call's status only counts as active when it is one of the three
      lower-case active strings: a running campaign whose calls are all
      still `'Pending'` (as the campaign-creation route writes them) is
      completed on the first check, with all of them counted processed. */
  lemma PendingCallsDoNotBlock(db: Db, cid: Id)
    requires cid != 0
    requires CampaignIndex(db.campaigns, cid).Some?
    requires db.campaigns[CampaignIndex(db.campaigns, cid).value].status == StatusRunning
    requires forall i :: 0 <= i < |db.calls| && db.calls[i].campaignId == Some(cid) ==>
               db.calls[i].callStatus == "Pending"
    ensures var r := CheckAndUpdate(db, Some(cid));
            && r.1.Some? && r.1.value.status == StatusCompleted
            && r.1.value.processedLeads == Count(db.calls, InCampaign(cid))
  {
    ForeignStatusStrings();
    CountZero(db.calls, ActiveIn(cid));
  }

  /** One call in an active status keeps a running campaign running. */
  lemma ActiveCallBlocks(db: Db, cid: Id, i: nat)
    requires cid != 0
    requires CampaignIndex(db.campaigns, cid).Some?
    requires i < |db.calls| && db.calls[i].campaignId == Some(cid) && IsActiveText(db.calls[i].callStatus)
    ensures var r := CheckAndUpdate(db, Some(cid));
            r.1.Some? && r.1.value.status == db.campaigns[CampaignIndex(db.campaigns, cid).value].status
  {
    CountZero(db.calls, ActiveIn(cid));
    assert ActiveIn(cid)(db.calls[i]);
  }

  /** The completed seconds are never negative while no call has a negative
      duration. */
  lemma {:induction false} CompletedSecondsNonNegative(calls: seq<Call>, cid: Id)
    requires forall i :: 0 <= i < |calls| && calls[i].durationInSeconds.Some? ==> calls[i].durationInSeconds.value >= 0
    ensures CompletedSeconds(calls, cid) >= 0
  {
    if |calls| > 0 {
      CompletedSecondsNonNegative(calls[..|calls| - 1], cid);
    }
  }

  /** Calls of other campaigns, and calls not in the completed status, add
      nothing to a campaign's completed seconds. */
  lemma CompletedSecondsAppend(calls: seq<Call>, c: Call, cid: Id)
    ensures c.campaignId != Some(cid) || !IsCompletedText(c.callStatus) ==>
              CompletedSeconds(calls + [c], cid) == CompletedSeconds(calls, cid)
  {
    assert (calls + [c])[..|calls|] == calls;
  }
}
