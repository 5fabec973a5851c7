/**
 * The minutely scheduler of broadcast campaigns: every campaign due at the
 * tick is marked SENDING, sent, marked SENT when at least one channel got
 * the message (FAILED otherwise) and rescheduled. A campaign whose
 * rescheduling throws is saved as FAILED instead and keeps its send time.
 */
module BroadcastScheduling {
  import opened Common
  import opened Domain
  import opened BroadcastDb
  import opened Broadcasting

  const SENDING: string := "SENDING"
  const SENT: string := "SENT"
  const FAILED: string := "FAILED"

  /**
   * The row one due campaign ends as, given how many of its sends
   * succeeded: SENT iff some send succeeded and the schedule step is in
   * range. When the step is out of range the stamped send time stays, the
   * status is FAILED and the next send time is not moved.
   */
  function Processed(c: Campaign, successes: nat, now: Minutes): (r: Campaign)
    ensures r.id == c.id && r.updatedAt == now && r.lastSentAt == Some(now)
    ensures r.status == SENT <==> successes > 0 && !Next(c.scheduleType, c.scheduleIntervalHours, now).OutOfRange?
    ensures r.status != SENT ==> r.status == FAILED
    ensures Next(c.scheduleType, c.scheduleIntervalHours, now).OutOfRange? ==>
              r.nextSendAt == c.nextSendAt && r.scheduleEnabled == c.scheduleEnabled
  {
    var sending := c.(status := SENDING, updatedAt := now);
    var sent := sending.(status := if successes > 0 then SENT else FAILED);
    if Next(c.scheduleType, c.scheduleIntervalHours, now).OutOfRange? then
      sent.(lastSentAt := Some(now), status := FAILED, updatedAt := now)
    else
      Rescheduled(sent, now).(updatedAt := now)
  }

  /**
   * A campaign processed at `now` is no longer due at `now` when its
   * schedule step is in range (and a CUSTOM interval is positive); with the
   * step out of range a due campaign stays due, to fail again next tick.
   */
  lemma {:induction false} ProcessedDueness(c: Campaign, successes: nat, now: Minutes)
    requires Due(c, now)
    ensures var step := Next(c.scheduleType, c.scheduleIntervalHours, now);
            (!step.OutOfRange? && (c.scheduleType == "CUSTOM" ==> c.scheduleIntervalHours.GetOr(DEFAULT_CUSTOM_HOURS) > 0))
            ==> !Due(Processed(c, successes, now), now)
    ensures Next(c.scheduleType, c.scheduleIntervalHours, now).OutOfRange? ==> Due(Processed(c, successes, now), now)
  {
    var step := Next(c.scheduleType, c.scheduleIntervalHours, now);
    if !step.OutOfRange? && (c.scheduleType == "CUSTOM" ==> c.scheduleIntervalHours.GetOr(DEFAULT_CUSTOM_HOURS) > 0) {
      var sent := c.(status := SENDING, updatedAt := now).(status := if successes > 0 then SENT else FAILED);
      RescheduledNotDue(sent, now);
    }
  }

  /** The campaign table after the first |due| campaigns were processed with these results. */
  function ProcessedAll(campaigns: map<int, Campaign>, due: seq<Campaign>, results: seq<BroadcastResult>, now: Minutes)
    : map<int, Campaign>
    requires |due| == |results|
  {
    if due == [] then campaigns
    else
      var n := |due| - 1;
      ProcessedAll(campaigns, due[..n], results[..n], now)[due[n].id := Processed(due[n], results[n].successfulSends, now)]
  }

  /** Processing one more due campaign overwrites its row with its processed form. */
  lemma {:induction false} ProcessedAllSnoc(campaigns: map<int, Campaign>, due: seq<Campaign>,
                                            results: seq<BroadcastResult>, r: BroadcastResult, now: Minutes)
    requires |results| < |due|
    ensures ProcessedAll(campaigns, due[..|results| + 1], results + [r], now)
            == ProcessedAll(campaigns, due[..|results|], results, now)[due[|results|].id := Processed(due[|results|], r.successfulSends, now)]
  {
    var i := |results|;
    assert due[..i + 1][..i] == due[..i];
    assert (results + [r])[..i] == results;
  }

  /**
   * Each due campaign's row is its processed form under its own result;
   * every other row is untouched and no row appears or disappears.
   */
  lemma {:induction false} ProcessedAllRows(campaigns: map<int, Campaign>, due: seq<Campaign>,
                                            results: seq<BroadcastResult>, now: Minutes)
    requires |due| == |results|
    requires forall j :: 0 <= j < |due| ==> due[j].id in campaigns
    requires forall i, j :: 0 <= i < j < |due| ==> due[i].id != due[j].id
    ensures ProcessedAll(campaigns, due, results, now).Keys == campaigns.Keys
    ensures forall j :: 0 <= j < |due| ==>
              ProcessedAll(campaigns, due, results, now)[due[j].id] == Processed(due[j], results[j].successfulSends, now)
    ensures forall k :: k in campaigns && (forall j :: 0 <= j < |due| ==> due[j].id != k) ==>
              ProcessedAll(campaigns, due, results, now)[k] == campaigns[k]
  {
    if due != [] {
      var n := |due| - 1;
      var prefix, prefixResults := due[..n], results[..n];
      ProcessedAllRows(campaigns, prefix, prefixResults, now);
      var prev := ProcessedAll(campaigns, prefix, prefixResults, now);
      var last := Processed(due[n], results[n].successfulSends, now);
      assert ProcessedAll(campaigns, due, results, now) == prev[due[n].id := last];
      forall j | 0 <= j < |due|
        ensures prev[due[n].id := last][due[j].id] == Processed(due[j], results[j].successfulSends, now)
      {
        if j < n {
          assert prefix[j] == due[j] && prefixResults[j] == results[j];
        }
      }
      forall k | k in campaigns && (forall j :: 0 <= j < |due| ==> due[j].id != k)
        ensures prev[due[n].id := last][k] == campaigns[k]
      {
        assert forall j :: 0 <= j < n ==> prefix[j].id != k;
      }
    }
  }

  /** One row that sending may change: only switched off, with a recorded reason and stamp. */
  predicate Deactivation(before: Channel, after: Channel)
  {
    !after.isActive && after == before.(isActive := false, validationError := after.validationError, updatedAt := after.updatedAt)
  }

  /** Channels are neither added, removed nor changed, except by being switched off. */
  ghost predicate OnlyDeactivated(before: map<int, Channel>, after: map<int, Channel>)
  {
    after.Keys == before.Keys
    && forall k :: k in before ==> after[k] == before[k] || Deactivation(before[k], after[k])
  }

  lemma {:induction false} OnlyDeactivatedTransitive(a: map<int, Channel>, b: map<int, Channel>, c: map<int, Channel>)
    requires OnlyDeactivated(a, b) && OnlyDeactivated(b, c)
    ensures OnlyDeactivated(a, c)
  {
  }

  /** A campaign run only switches channels off. */
  lemma {:induction false} AfterSendDeactivates(before: map<int, Channel>, after: map<int, Channel>, businessId: int,
                             send: string -> SendOutcome, now: Minutes)
    requires after.Keys == before.Keys
    requires forall k :: k in before ==> after[k] == AfterSend(before[k], businessId, send, now)
    ensures OnlyDeactivated(before, after)
  {
  }

  class BroadcastScheduler {
    const db: BroadcastDbService
    const service: BroadcastService

    ghost predicate Valid()
      reads this, db, service
    {
      db.Valid() && service.db == db
    }

    constructor(db: BroadcastDbService, service: BroadcastService)
      requires db.Valid() && service.db == db
      ensures Valid() && this.db == db && this.service == service
    {
      this.db := db;
      this.service := service;
    }

    /**
     * sendScheduledCampaigns at `now`: the campaigns due at `now` are
     * processed in id order, one result each; with none due nothing
     * changes. `send(id)` is what the Bot API does with campaign id's
     * message in each chat.
     */
    method SendScheduledCampaigns(now: Minutes, send: int -> string -> SendOutcome) returns (results: seq<BroadcastResult>)
      requires Valid()
      modifies db
      ensures Valid()
      ensures db.nextCampaignId == old(db.nextCampaignId) && db.nextChannelId == old(db.nextChannelId)
      ensures var due := old(db.FindCampaignsDueForSending(now));
              |results| == |due|
              && (forall i :: 0 <= i < |due| ==>
                    results[i].campaignId == due[i].id
                    && results[i].successfulSends + results[i].failedSends == results[i].totalChannels)
              && db.campaigns == ProcessedAll(old(db.campaigns), due, results, now)
      ensures OnlyDeactivated(old(db.channels), db.channels)
      ensures old(db.FindCampaignsDueForSending(now)) == [] ==>
                db.campaigns == old(db.campaigns) && db.channels == old(db.channels)
    {
      var due := db.FindCampaignsDueForSending(now);
      if due == [] {
        return [];
      }
      results := ProcessAll(due, now, send);
    }

    /** The forEach over the due campaigns. */
    method ProcessAll(due: seq<Campaign>, now: Minutes, send: int -> string -> SendOutcome)
      returns (results: seq<BroadcastResult>)
      requires Valid()
      requires forall i :: 0 <= i < |due| ==> due[i].id in db.campaigns
      modifies db
      ensures Valid()
      ensures db.nextCampaignId == old(db.nextCampaignId) && db.nextChannelId == old(db.nextChannelId)
      ensures |results| == |due|
      ensures forall i :: 0 <= i < |due| ==>
                results[i].campaignId == due[i].id
                && results[i].successfulSends + results[i].failedSends == results[i].totalChannels
      ensures db.campaigns == ProcessedAll(old(db.campaigns), due, results, now)
      ensures OnlyDeactivated(old(db.channels), db.channels)
    {
      results := [];
      var i := 0;
      while i < |due|
        invariant 0 <= i <= |due| && |results| == i
        invariant Valid()
        invariant db.nextCampaignId == old(db.nextCampaignId) && db.nextChannelId == old(db.nextChannelId)
        invariant db.campaigns.Keys == old(db.campaigns).Keys
        invariant forall j :: 0 <= j < i ==>
                    results[j].campaignId == due[j].id
                    && results[j].successfulSends + results[j].failedSends == results[j].totalChannels
        invariant db.campaigns == ProcessedAll(old(db.campaigns), due[..i], results, now)
        invariant OnlyDeactivated(old(db.channels), db.channels)
      {
        ghost var channelsBefore := db.channels;
        var r := ProcessCampaign(due[i], now, send(due[i].id));
        OnlyDeactivatedTransitive(old(db.channels), channelsBefore, db.channels);
        ProcessedAllSnoc(old(db.campaigns), due, results, r, now);
        results := results + [r];
        i := i + 1;
      }
      assert due[..i] == due;
    }

    /** The body of the forEach for one campaign, with its catch. */
    method ProcessCampaign(campaign: Campaign, now: Minutes, send: string -> SendOutcome) returns (result: BroadcastResult)
      requires Valid() && campaign.id in db.campaigns
      modifies db
      ensures Valid()
      ensures db.nextCampaignId == old(db.nextCampaignId) && db.nextChannelId == old(db.nextChannelId)
      ensures result.campaignId == campaign.id
      ensures result.successfulSends + result.failedSends == result.totalChannels
      ensures db.campaigns == old(db.campaigns)[campaign.id := Processed(campaign, result.successfulSends, now)]
      ensures OnlyDeactivated(old(db.channels), db.channels)
    {
      var sending := db.UpdateCampaign(campaign.(status := SENDING), now);
      ghost var channelsBefore := db.channels;
      result := service.SendCampaign(sending, send, now);
      AfterSendDeactivates(channelsBefore, db.channels, sending.businessId, send, now);
      Conclude(campaign, sending, result.successfulSends, now);
    }

    /** After the sends: the status from the successes, then the rescheduling or the catch. */
    method Conclude(campaign: Campaign, sending: Campaign, successes: nat, now: Minutes)
      requires Valid() && campaign.id in db.campaigns
      requires sending == campaign.(status := SENDING, updatedAt := now)
      modifies db
      ensures Valid()
      ensures db.nextCampaignId == old(db.nextCampaignId) && db.nextChannelId == old(db.nextChannelId)
      ensures db.channels == old(db.channels)
      ensures db.campaigns == old(db.campaigns)[campaign.id := Processed(campaign, successes, now)]
    {
      var sent := sending.(status := if successes > 0 then SENT else FAILED);
      var rescheduled := db.UpdateNextSendTime(sent, now);
      if rescheduled.Fail? {
        // The exception leaves the caller's object stamped with the send time.
        var failed := db.UpdateCampaign(sent.(lastSentAt := Some(now), status := FAILED), now);
        assert failed == Processed(campaign, successes, now);
      } else {
        assert rescheduled.value == Processed(campaign, successes, now);
      }
    }
  }
}
