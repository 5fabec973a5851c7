/**
 * Sending one campaign: its message goes to every active channel of its
 * business, one result per channel in channel order. A Telegram API error
 * deactivates that channel and records why; any other error is reported
 * but leaves the channel as it was.
 */
module Broadcasting {
  import opened Common
  import opened Domain
  import opened BroadcastDb

  /** What sending the message to one chat does (the Bot API, outside this model). */
  datatype SendOutcome =
    | Delivered
    | ApiError(message: Option<string>)       // a TelegramApiException
    | OtherError(message: Option<string>)     // any other exception

  datatype ChannelBroadcastResult = ChannelBroadcastResult(
    channelId: string,
    channelName: Option<string>,
    success: bool,
    error: Option<string>)

  datatype BroadcastResult = BroadcastResult(
    campaignId: int,
    totalChannels: nat,
    successfulSends: nat,
    failedSends: nat,
    results: seq<ChannelBroadcastResult>)

  const UNKNOWN_API_ERROR: string := "Неизвестная ошибка Telegram API"

  /** A nullable string spliced into a Kotlin string template. */
  function Template(s: Option<string>): (t: string)
    ensures s.Some? ==> t == s.value
    ensures s.None? ==> t == "null"
  {
    s.GetOr("null")
  }

  /** sendToChannel's report for one channel. */
  function ResultFor(channel: Channel, outcome: SendOutcome): (r: ChannelBroadcastResult)
    ensures r.channelId == channel.channelId && r.channelName == channel.channelName
    ensures r.success <==> outcome.Delivered?
    ensures r.success <==> r.error.None?
    ensures outcome.ApiError? ==> r.error == Some(outcome.message.GetOr(UNKNOWN_API_ERROR))
  {
    match outcome
    case Delivered => ChannelBroadcastResult(channel.channelId, channel.channelName, true, None)
    case ApiError(message) =>
      ChannelBroadcastResult(channel.channelId, channel.channelName, false, Some(message.GetOr(UNKNOWN_API_ERROR)))
    case OtherError(message) =>
      ChannelBroadcastResult(channel.channelId, channel.channelName, false, Some("Неожиданная ошибка: " + Template(message)))
  }

  /** A channel the API refused: inactive, with the refusal recorded. */
  function Deactivated(channel: Channel, message: Option<string>): (c: Channel)
    ensures !c.isActive && c.validationError == Some("Ошибка отправки: " + Template(message))
    ensures c == channel.(isActive := false, validationError := c.validationError)
  {
    channel.(isActive := false, validationError := Some("Ошибка отправки: " + Template(message)))
  }

  /** The per-channel results, in channel order. */
  function ResultsFor(channels: seq<Channel>, send: string -> SendOutcome): (r: seq<ChannelBroadcastResult>)
    ensures |r| == |channels|
    ensures forall i :: 0 <= i < |channels| ==> r[i] == ResultFor(channels[i], send(channels[i].channelId))
  {
    if channels == [] then [] else [ResultFor(channels[0], send(channels[0].channelId))] + ResultsFor(channels[1..], send)
  }

  /** The results for one more channel end with that channel's result. */
  lemma {:induction false} ResultsForStep(channels: seq<Channel>, i: nat, send: string -> SendOutcome)
    requires i < |channels|
    ensures ResultsFor(channels[..i + 1], send)
            == ResultsFor(channels[..i], send) + [ResultFor(channels[i], send(channels[i].channelId))]
  {
    var longer, shorter := ResultsFor(channels[..i + 1], send), ResultsFor(channels[..i], send);
    assert forall j :: 0 <= j < i ==> channels[..i + 1][j] == channels[..i][j];
    assert longer == shorter + [ResultFor(channels[i], send(channels[i].channelId))];
  }

  /** The successful sends are the channels the message was delivered to. */
  lemma {:induction false} SuccessesAreDeliveries(channels: seq<Channel>, send: string -> SendOutcome)
    ensures Count(ResultsFor(channels, send), (r: ChannelBroadcastResult) => r.success)
            == Count(channels, (c: Channel) => send(c.channelId).Delivered?)
  {
    if channels != [] {
      SuccessesAreDeliveries(channels[1..], send);
      assert ResultsFor(channels, send)[1..] == ResultsFor(channels[1..], send);
    }
  }

  /** The totals sendCampaign reports for the per-channel results. */
  function Summarize(campaignId: int, results: seq<ChannelBroadcastResult>): (r: BroadcastResult)
    ensures r.campaignId == campaignId && r.results == results && r.totalChannels == |results|
    ensures r.successfulSends == Count(results, (c: ChannelBroadcastResult) => c.success)
    ensures r.successfulSends + r.failedSends == r.totalChannels
  {
    var success := (c: ChannelBroadcastResult) => c.success;
    var failure := (c: ChannelBroadcastResult) => !c.success;
    CountComplement(results, success, failure);
    BroadcastResult(campaignId, |results|, Count(results, success), Count(results, failure), results)
  }

  /** The row a channel ends as after one campaign run over the active channels of `businessId`. */
  function AfterSend(channel: Channel, businessId: int, send: string -> SendOutcome, now: Minutes): (c: Channel)
    ensures channel.businessId == businessId && channel.isActive && send(channel.channelId).ApiError? ==>
              c == Deactivated(channel, send(channel.channelId).message).(updatedAt := now)
    ensures !(channel.businessId == businessId && channel.isActive && send(channel.channelId).ApiError?) ==> c == channel
  {
    if channel.businessId == businessId && channel.isActive && send(channel.channelId).ApiError? then
      Deactivated(channel, send(channel.channelId).message).(updatedAt := now)
    else channel
  }

  /** The channel rows the loop has reached are updated; the others are as before. */
  ghost predicate SentUpTo(channels: seq<Channel>, i: nat, send: string -> SendOutcome, now: Minutes,
                           before: map<int, Channel>, after: map<int, Channel>)
    requires i <= |channels|
  {
    after.Keys == before.Keys
    && forall k :: k in before ==>
         after[k] == (if k in (set j | 0 <= j < i :: channels[j].id) && send(before[k].channelId).ApiError?
                      then Deactivated(before[k], send(before[k].channelId).message).(updatedAt := now)
                      else before[k])
  }

  /** The channel about to be sent to has not been touched yet. */
  lemma {:induction false} NotYetSent(channels: seq<Channel>, i: nat, send: string -> SendOutcome, now: Minutes,
                   before: map<int, Channel>, mid: map<int, Channel>)
    requires i < |channels|
    requires forall j :: 0 <= j < |channels| ==> channels[j].id in before && before[channels[j].id] == channels[j]
    requires forall j, l :: 0 <= j < l < |channels| ==> channels[j].id != channels[l].id
    requires SentUpTo(channels, i, send, now, before, mid)
    ensures channels[i].id in mid && mid[channels[i].id] == channels[i]
  {
    assert channels[i].id !in (set j | 0 <= j < i :: channels[j].id);
  }

  /** Sending to one more channel extends the updated prefix by that channel. */
  lemma {:induction false} SentStep(channels: seq<Channel>, i: nat, send: string -> SendOutcome, now: Minutes,
                 before: map<int, Channel>, mid: map<int, Channel>, after: map<int, Channel>)
    requires i < |channels|
    requires forall j :: 0 <= j < |channels| ==> channels[j].id in before && before[channels[j].id] == channels[j]
    requires SentUpTo(channels, i, send, now, before, mid)
    requires send(channels[i].channelId).ApiError? ==>
               after == mid[channels[i].id := Deactivated(channels[i], send(channels[i].channelId).message).(updatedAt := now)]
    requires !send(channels[i].channelId).ApiError? ==> after == mid
    ensures SentUpTo(channels, i + 1, send, now, before, after)
  {
    assert (set j | 0 <= j < i + 1 :: channels[j].id) == (set j | 0 <= j < i :: channels[j].id) + {channels[i].id};
  }

  /** Once every targeted channel is reached, each row is as AfterSend says. */
  lemma {:induction false} SentAll(channels: seq<Channel>, businessId: int, send: string -> SendOutcome, now: Minutes,
                before: map<int, Channel>, after: map<int, Channel>)
    requires forall c :: c in channels <==> c in before.Values && c.businessId == businessId && c.isActive
    requires forall j :: 0 <= j < |channels| ==> channels[j].id in before && before[channels[j].id] == channels[j]
    requires forall k :: k in before ==> before[k].id == k
    requires SentUpTo(channels, |channels|, send, now, before, after)
    ensures after.Keys == before.Keys
    ensures forall k :: k in before ==> after[k] == AfterSend(before[k], businessId, send, now)
  {
    var reached := set j | 0 <= j < |channels| :: channels[j].id;
    forall k | k in before
      ensures after[k] == AfterSend(before[k], businessId, send, now)
    {
      var c := before[k];
      assert c in before.Values;
      if c.businessId == businessId && c.isActive {
        var j :| 0 <= j < |channels| && channels[j] == c;
        assert channels[j].id == k;
        assert k in reached;
      }
      if k in reached {
        var j :| 0 <= j < |channels| && channels[j].id == k;
        assert channels[j] in channels;
        assert before[k] == channels[j];
      }
    }
  }

  class BroadcastService {
    const db: BroadcastDbService

    constructor(db: BroadcastDbService)
      ensures this.db == db
    {
      this.db := db;
    }

    /**
     * sendCampaign: one result per active channel of the campaign's
     * business, in channel order; the successes are the deliveries, and
     * successes and failures add up to the number of channels. With no
     * active channel nothing is sent and every total is zero.
     */
    method SendCampaign(campaign: Campaign, send: string -> SendOutcome, now: Minutes) returns (result: BroadcastResult)
      requires db.Valid()
      modifies db
      ensures db.Valid()
      ensures db.campaigns == old(db.campaigns) && db.nextCampaignId == old(db.nextCampaignId)
      ensures db.nextChannelId == old(db.nextChannelId) && db.channels.Keys == old(db.channels).Keys
      ensures forall k :: k in old(db.channels) ==>
                db.channels[k] == AfterSend(old(db.channels)[k], campaign.businessId, send, now)
      ensures var targets := old(db.FindActiveChannelsByBusinessId(campaign.businessId));
              result.campaignId == campaign.id
              && result.totalChannels == |targets|
              && result.results == ResultsFor(targets, send)
              && result.successfulSends == Count(targets, (c: Channel) => send(c.channelId).Delivered?)
              && result.successfulSends + result.failedSends == result.totalChannels
    {
      var channels := db.FindActiveChannelsByBusinessId(campaign.businessId);
      result := Broadcast(campaign, channels, send, now);
    }

    /** sendCampaign after the channel query: the sends and the totals. */
    method Broadcast(campaign: Campaign, channels: seq<Channel>, send: string -> SendOutcome, now: Minutes)
      returns (result: BroadcastResult)
      requires db.Valid()
      requires forall c :: c in channels <==> c in db.channels.Values && c.businessId == campaign.businessId && c.isActive
      requires forall i :: 0 <= i < |channels| ==> channels[i].id in db.channels && db.channels[channels[i].id] == channels[i]
      requires forall i, j :: 0 <= i < j < |channels| ==> channels[i].id != channels[j].id
      modifies db
      ensures db.Valid()
      ensures db.campaigns == old(db.campaigns) && db.nextCampaignId == old(db.nextCampaignId)
      ensures db.nextChannelId == old(db.nextChannelId) && db.channels.Keys == old(db.channels).Keys
      ensures forall k :: k in old(db.channels) ==>
                db.channels[k] == AfterSend(old(db.channels)[k], campaign.businessId, send, now)
      ensures result.campaignId == campaign.id
              && result.totalChannels == |channels|
              && result.results == ResultsFor(channels, send)
              && result.successfulSends == Count(channels, (c: Channel) => send(c.channelId).Delivered?)
              && result.successfulSends + result.failedSends == result.totalChannels
    {
      if channels == [] {
        SentAll(channels, campaign.businessId, send, now, db.channels, db.channels);
        return BroadcastResult(campaign.id, 0, 0, 0, []);
      }
      var results := SendAll(channels, campaign.messageText, send, now);
      SentAll(channels, campaign.businessId, send, now, old(db.channels), db.channels);
      SuccessesAreDeliveries(channels, send);
      result := Summarize(campaign.id, results);
    }

    /** Sends to each channel in turn; one channel's failure does not stop the others. */
    method SendAll(channels: seq<Channel>, text: string, send: string -> SendOutcome, now: Minutes)
      returns (results: seq<ChannelBroadcastResult>)
      requires db.Valid()
      requires forall i :: 0 <= i < |channels| ==> channels[i].id in db.channels && db.channels[channels[i].id] == channels[i]
      requires forall i, j :: 0 <= i < j < |channels| ==> channels[i].id != channels[j].id
      modifies db
      ensures db.Valid()
      ensures db.campaigns == old(db.campaigns) && db.nextCampaignId == old(db.nextCampaignId)
      ensures db.nextChannelId == old(db.nextChannelId)
      ensures SentUpTo(channels, |channels|, send, now, old(db.channels), db.channels)
      ensures results == ResultsFor(channels, send)
    {
      results := [];
      var i := 0;
      while i < |channels|
        invariant 0 <= i <= |channels|
        invariant db.Valid()
        invariant db.campaigns == old(db.campaigns) && db.nextCampaignId == old(db.nextCampaignId)
        invariant db.nextChannelId == old(db.nextChannelId)
        invariant SentUpTo(channels, i, send, now, old(db.channels), db.channels)
        invariant results == ResultsFor(channels[..i], send)
      {
        NotYetSent(channels, i, send, now, old(db.channels), db.channels);
        ghost var mid := db.channels;
        var r := SendToChannel(channels[i], text, send(channels[i].channelId), now);
        SentStep(channels, i, send, now, old(db.channels), mid, db.channels);
        ResultsForStep(channels, i, send);
        results := results + [r];
        i := i + 1;
      }
      assert channels[..i] == channels;
    }

    /** sendToChannel: the result for one channel; an API error deactivates the channel's row. */
    method SendToChannel(channel: Channel, text: string, outcome: SendOutcome, now: Minutes)
      returns (r: ChannelBroadcastResult)
      requires db.Valid() && channel.id in db.channels && db.channels[channel.id] == channel
      modifies db
      ensures db.Valid()
      ensures db.campaigns == old(db.campaigns) && db.nextCampaignId == old(db.nextCampaignId)
      ensures db.nextChannelId == old(db.nextChannelId)
      ensures r == ResultFor(channel, outcome)
      ensures outcome.ApiError? ==>
                db.channels == old(db.channels)[channel.id := Deactivated(channel, outcome.message).(updatedAt := now)]
      ensures !outcome.ApiError? ==> db.channels == old(db.channels)
    {
      if outcome.ApiError? {
        var saved := db.UpdateChannel(Deactivated(channel, outcome.message), now);
      }
      r := ResultFor(channel, outcome);
    }
  }
}
