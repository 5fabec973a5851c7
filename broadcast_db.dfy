/**
 * The broadcast tables: the chats a business posts to (channels) and its
 * advertising campaigns, the due filter the scheduler runs on, and the
 * schedule arithmetic that moves a campaign's next send time forward.
 *
 * Times are wall-clock minutes at the server's fixed offset, so "the
 * minute of the hour" is `t % 60` and "midnight" is `t - t % 1440`.
 */
module BroadcastDb {
  import opened Common
  import opened Domain

  const MINUTES_PER_WEEK: int := 7 * MINUTES_PER_DAY
  const EVERY_15_MINUTES_STEP: int := 15
  const DEFAULT_CUSTOM_HOURS: int := 24

  const DUPLICATE_CHANNEL: string := "uk_business_channel"
  const UNTITLED_CHAT: string := "Чат без названия"
  const NOT_A_MEMBER: string := "Бот не является участником группы"
  const RESTRICTED: string := "Бот ограничен в правах или удален из группы"
  const CANNOT_SEND: string := "Бот не может отправлять сообщения в эту группу"
  const UNKNOWN_ERROR: string := "Неизвестная ошибка"

  // ---------------------------------------------------------------------
  // Schedule arithmetic
  // ---------------------------------------------------------------------

  /** What updateNextSendTime does to the schedule. */
  datatype NextSend =
    | Stop              // the schedule is switched off and nextSendAt cleared
    | At(t: Minutes)    // nextSendAt becomes t
    | OutOfRange        // withMinute/withHour throw: the stored minute or hour is not a valid one

  /** Within an hour that starts on the hour, the minute of the hour is the offset into it. */
  lemma {:induction false} OffsetInHour(u: int, start: int)
    requires start % 60 == 0 && start <= u < start + 60
    ensures u % 60 == u - start
  {
  }

  /** Within a day that starts at midnight, the minute of the day is the offset into it. */
  lemma {:induction false} OffsetInDay(u: int, start: int)
    requires start % 1440 == 0 && start <= u < start + 1440
    ensures u % 1440 == u - start
  {
  }

  /** The first instant after `now` whose minute of the hour is `minute`. */
  function NextAtMinute(now: Minutes, minute: int): (t: Minutes)
    requires 0 <= minute < MINUTES_PER_HOUR
    ensures now < t <= now + MINUTES_PER_HOUR
    ensures t % MINUTES_PER_HOUR == minute
    ensures forall u :: now < u < t ==> u % MINUTES_PER_HOUR != minute
  {
    var start := now - now % MINUTES_PER_HOUR;
    var candidate := start + minute;
    var t := if candidate <= now then candidate + MINUTES_PER_HOUR else candidate;
    forall u | now < u < t
      ensures u % MINUTES_PER_HOUR != minute
    {
      if u < start + MINUTES_PER_HOUR {
        OffsetInHour(u, start);
      } else {
        OffsetInHour(u, start + MINUTES_PER_HOUR);
      }
    }
    OffsetInHour(t, t - minute);
    t
  }

  /** The first instant after `now` that is `hour` o'clock sharp. */
  function NextAtHour(now: Minutes, hour: int): (t: Minutes)
    requires 0 <= hour < 24
    ensures now < t <= now + MINUTES_PER_DAY
    ensures t % MINUTES_PER_DAY == hour * MINUTES_PER_HOUR
    ensures forall u :: now < u < t ==> u % MINUTES_PER_DAY != hour * MINUTES_PER_HOUR
  {
    var start := now - now % MINUTES_PER_DAY;
    var candidate := start + hour * MINUTES_PER_HOUR;
    var t := if candidate <= now then candidate + MINUTES_PER_DAY else candidate;
    forall u | now < u < t
      ensures u % MINUTES_PER_DAY != hour * MINUTES_PER_HOUR
    {
      if u < start + MINUTES_PER_DAY {
        OffsetInDay(u, start);
      } else {
        OffsetInDay(u, start + MINUTES_PER_DAY);
      }
    }
    OffsetInDay(t, t - hour * MINUTES_PER_HOUR);
    t
  }

  /**
   * The schedule step of updateNextSendTime for each schedule type.
   * HOURLY keeps its minute and DAILY its hour in scheduleIntervalHours.
   */
  function Next(scheduleType: string, intervalHours: Option<int>, now: Minutes): (s: NextSend)
    ensures scheduleType == "HOURLY" ==>
              var m := intervalHours.GetOr(0);
              if 0 <= m < MINUTES_PER_HOUR then s.At? && now < s.t <= now + MINUTES_PER_HOUR && s.t % MINUTES_PER_HOUR == m
              else s.OutOfRange?
    ensures scheduleType == "DAILY" ==>
              var h := intervalHours.GetOr(0);
              if 0 <= h < 24 then s.At? && now < s.t <= now + MINUTES_PER_DAY && s.t % MINUTES_PER_DAY == h * MINUTES_PER_HOUR
              else s.OutOfRange?
    ensures scheduleType == "WEEKLY" ==> s == At(now + MINUTES_PER_WEEK)
    ensures scheduleType == "EVERY_15_MINUTES" ==> s == At(now + EVERY_15_MINUTES_STEP)
    ensures scheduleType == "CUSTOM" ==> s == At(now + intervalHours.GetOr(DEFAULT_CUSTOM_HOURS) * MINUTES_PER_HOUR)
    ensures s.Stop? <==> scheduleType !in {"HOURLY", "DAILY", "WEEKLY", "EVERY_15_MINUTES", "CUSTOM"}
  {
    match scheduleType
    case "ONCE" => Stop
    case "HOURLY" =>
      var minute := intervalHours.GetOr(0);
      if 0 <= minute < MINUTES_PER_HOUR then At(NextAtMinute(now, minute)) else OutOfRange
    case "DAILY" =>
      var hour := intervalHours.GetOr(0);
      if 0 <= hour < 24 then At(NextAtHour(now, hour)) else OutOfRange
    case "WEEKLY" => At(now + MINUTES_PER_WEEK)
    case "EVERY_15_MINUTES" => At(now + EVERY_15_MINUTES_STEP)
    case "CUSTOM" => At(now + intervalHours.GetOr(DEFAULT_CUSTOM_HOURS) * MINUTES_PER_HOUR)
    case _ => Stop
  }

  /** findCampaignsDueForSending's test. */
  predicate Due(c: Campaign, now: Minutes)
  {
    c.scheduleEnabled && c.nextSendAt.Some? && c.nextSendAt.value <= now
  }

  /** The campaign after a successful updateNextSendTime (before the update stamp). */
  function Rescheduled(c: Campaign, now: Minutes): (r: Campaign)
    requires !Next(c.scheduleType, c.scheduleIntervalHours, now).OutOfRange?
    ensures r.lastSentAt == Some(now)
    ensures r == c.(lastSentAt := r.lastSentAt, scheduleEnabled := r.scheduleEnabled, nextSendAt := r.nextSendAt)
    ensures Next(c.scheduleType, c.scheduleIntervalHours, now).Stop? ==> !r.scheduleEnabled && r.nextSendAt.None?
    ensures Next(c.scheduleType, c.scheduleIntervalHours, now).At? ==>
              r.scheduleEnabled == c.scheduleEnabled && r.nextSendAt == Some(Next(c.scheduleType, c.scheduleIntervalHours, now).t)
  {
    match Next(c.scheduleType, c.scheduleIntervalHours, now)
    case Stop => c.(lastSentAt := Some(now), scheduleEnabled := false, nextSendAt := None)
    case At(t) => c.(lastSentAt := Some(now), nextSendAt := Some(t))
  }

  /**
   * A campaign sent and rescheduled at `now` is not due again at `now`,
   * unless it is a CUSTOM campaign whose interval is not positive.
   */
  lemma {:induction false} RescheduledNotDue(c: Campaign, now: Minutes)
    requires !Next(c.scheduleType, c.scheduleIntervalHours, now).OutOfRange?
    requires c.scheduleType == "CUSTOM" ==> c.scheduleIntervalHours.GetOr(DEFAULT_CUSTOM_HOURS) > 0
    ensures !Due(Rescheduled(c, now), now)
  {
  }

  /** A CUSTOM interval of zero hours leaves the campaign due at the same instant. */
  lemma {:induction false} ZeroCustomIntervalStaysDue(c: Campaign, now: Minutes)
    requires c.scheduleType == "CUSTOM" && c.scheduleIntervalHours == Some(0) && c.scheduleEnabled
    ensures Due(Rescheduled(c, now), now)
  {
  }

  // ---------------------------------------------------------------------
  // Channel validation
  // ---------------------------------------------------------------------

  /** What the Bot API calls of validateChannelAccess report. */
  datatype ChatLookup =
    | ChatFound(title: Option<string>, userName: Option<string>, memberStatus: string)
    | ApiFailure(message: Option<string>)      // a TelegramApiException
    | Unexpected(message: Option<string>)      // any other exception

  datatype ChannelValidationResult = ChannelValidationResult(
    success: bool,
    channelName: Option<string>,
    channelType: Option<string>,
    error: Option<string>)

  predicate IsMemberStatus(status: string)
  {
    status == "member" || status == "administrator" || status == "creator"
  }

  /**
   * validateChannelAccess: the bot may post iff it is a member, an
   * administrator or the creator. The restricted and cannot-send checks
   * that follow the membership check can never fail.
   */
  function ValidateChannelAccess(lookup: ChatLookup): (r: ChannelValidationResult)
    ensures r.success <==> lookup.ChatFound? && IsMemberStatus(lookup.memberStatus)
    ensures lookup.ChatFound? ==> r.channelName == lookup.title
    ensures r.channelType.Some? <==> r.success
    ensures r.success ==> r.channelType == Some(if lookup.userName.Some? then "PUBLIC" else "PRIVATE")
    ensures r.success <==> r.error.None?
    ensures lookup.ChatFound? && !r.success ==> r.error == Some(NOT_A_MEMBER)
    ensures r.error != Some(RESTRICTED) && r.error != Some(CANNOT_SEND)
  {
    match lookup
    case ApiFailure(message) =>
      var error := "Ошибка проверки чата: " + message.GetOr(UNKNOWN_ERROR);
      assert error[0] != RESTRICTED[0] && error[0] != CANNOT_SEND[0];
      ChannelValidationResult(false, None, None, Some(error))
    case Unexpected(message) =>
      var error := "Неожиданная ошибка: " + message.GetOr(UNKNOWN_ERROR);
      assert error[0] != RESTRICTED[0] && error[0] != CANNOT_SEND[0];
      ChannelValidationResult(false, None, None, Some(error))
    case ChatFound(title, userName, status) =>
      var isMember := IsMemberStatus(status);
      if !isMember then ChannelValidationResult(false, title, None, Some(NOT_A_MEMBER))
      else
        var isRestricted := status == "restricted" || status == "kicked";
        if isRestricted then ChannelValidationResult(false, title, None, Some(RESTRICTED))
        else
          var canSendMessages := status == "administrator" || status == "creator" || status == "member";
          if !canSendMessages then ChannelValidationResult(false, title, None, Some(CANNOT_SEND))
          else ChannelValidationResult(true, title, Some(if userName.Some? then "PUBLIC" else "PRIVATE"), None)
  }

  // ---------------------------------------------------------------------
  // Tables
  // ---------------------------------------------------------------------

  ghost predicate UniqueChannels(channels: map<int, Channel>)
  {
    forall k1, k2 ::
      (k1 in channels && k2 in channels
       && channels[k1].businessId == channels[k2].businessId && channels[k1].channelId == channels[k2].channelId)
      ==> k1 == k2
  }

  ghost predicate Registered(channels: map<int, Channel>, businessId: int, channelId: string)
  {
    exists k :: k in channels && channels[k].businessId == businessId && channels[k].channelId == channelId
  }

  class BroadcastDbService {
    var channels: map<int, Channel>
    var nextChannelId: int
    var campaigns: map<int, Campaign>
    var nextCampaignId: int

    ghost predicate Valid()
      reads this
    {
      1 <= nextChannelId && IdsBelow(channels, nextChannelId)
      && (forall k :: k in channels ==> channels[k].id == k)
      && UniqueChannels(channels)
      && 1 <= nextCampaignId && IdsBelow(campaigns, nextCampaignId)
      && (forall k :: k in campaigns ==> campaigns[k].id == k)
    }

    constructor()
      ensures Valid() && channels == map[] && campaigns == map[]
    {
      channels := map[];
      nextChannelId := 1;
      campaigns := map[];
      nextCampaignId := 1;
    }

    // ----- channels -----

    /**
     * createChannel: an active PUBLIC channel that the bot is not known to
     * administer. A second channel with the same chat for the same
     * business violates the unique constraint.
     */
    method CreateChannel(businessId: int, channelId: string, channelName: Option<string>, now: Minutes)
      returns (r: Result<Channel>)
      requires Valid()
      modifies this
      ensures Valid() && campaigns == old(campaigns) && nextCampaignId == old(nextCampaignId)
      ensures r.Ok? <==> !Registered(old(channels), businessId, channelId)
      ensures r.Fail? ==> r.error == DUPLICATE_CHANNEL && channels == old(channels) && nextChannelId == old(nextChannelId)
      ensures r.Ok? ==> r.value == Channel(old(nextChannelId), businessId, channelId, channelName, "PUBLIC", true,
                                           false, None, None, now, now)
                        && old(nextChannelId) !in old(channels)
                        && channels == old(channels)[old(nextChannelId) := r.value]
                        && nextChannelId == old(nextChannelId) + 1
    {
      r := Insert(Channel(nextChannelId, businessId, channelId, channelName, "PUBLIC", true, false, None, None, now, now));
    }

    /** Saves a new channel row under the next id, unless its chat is already registered for its business. */
    method Insert(channel: Channel) returns (r: Result<Channel>)
      requires Valid() && channel.id == nextChannelId
      modifies this
      ensures Valid() && campaigns == old(campaigns) && nextCampaignId == old(nextCampaignId)
      ensures r.Ok? <==> !Registered(old(channels), channel.businessId, channel.channelId)
      ensures r.Fail? ==> r.error == DUPLICATE_CHANNEL && channels == old(channels) && nextChannelId == old(nextChannelId)
      ensures r.Ok? ==> r.value == channel && old(nextChannelId) !in old(channels)
                        && channels == old(channels)[old(nextChannelId) := channel]
                        && nextChannelId == old(nextChannelId) + 1
    {
      if FindChannelByBusinessIdAndChannelId(channel.businessId, channel.channelId).Some? {
        return Fail(DUPLICATE_CHANNEL);
      }
      channels := channels[nextChannelId := channel];
      nextChannelId := nextChannelId + 1;
      r := Ok(channel);
    }

    /** findChannelsByBusinessId. */
    function FindChannelsByBusinessId(businessId: int): (r: seq<Channel>)
      reads this
      requires Valid()
      ensures forall c :: c in r <==> c in channels.Values && c.businessId == businessId
    {
      RowsAreValues(channels, nextChannelId);
      Filter(Rows(channels, nextChannelId), (c: Channel) => c.businessId == businessId)
    }

    /** findActiveChannelsByBusinessId: the active channels of the business, each once, in id order. */
    function FindActiveChannelsByBusinessId(businessId: int): (r: seq<Channel>)
      reads this
      requires Valid()
      ensures forall c :: c in r <==> c in channels.Values && c.businessId == businessId && c.isActive
      ensures forall i :: 0 <= i < |r| ==> r[i].id in channels && channels[r[i].id] == r[i]
      ensures forall i, j :: 0 <= i < j < |r| ==> r[i].id != r[j].id
    {
      RowsAreValues(channels, nextChannelId);
      RowsDistinct(channels, nextChannelId);
      var r := Filter(Rows(channels, nextChannelId), (c: Channel) => c.businessId == businessId && c.isActive);
      FilterDistinct(Rows(channels, nextChannelId), (c: Channel) => c.businessId == businessId && c.isActive);
      assert forall i :: 0 <= i < |r| ==> r[i] in r;
      r
    }

    /** findChannelByBusinessIdAndChannelId: the only channel of this chat for this business, if any. */
    function FindChannelByBusinessIdAndChannelId(businessId: int, channelId: string): (r: Option<Channel>)
      reads this
      requires Valid()
      ensures r.None? <==> !Registered(channels, businessId, channelId)
      ensures r.Some? ==> r.value.id in channels && channels[r.value.id] == r.value
                          && r.value.businessId == businessId && r.value.channelId == channelId
    {
      RowsAreValues(channels, nextChannelId);
      var hits := Filter(Rows(channels, nextChannelId),
                         (c: Channel) => c.businessId == businessId && c.channelId == channelId);
      if hits == [] then
        assert forall k :: k in channels ==> channels[k] in channels.Values;
        None
      else
        assert hits[0] in hits;
        Some(hits[0])
    }

    /** channelExists. */
    function ChannelExists(businessId: int, channelId: string): (b: bool)
      reads this
      requires Valid()
      ensures b <==> Registered(channels, businessId, channelId)
    {
      FindChannelByBusinessIdAndChannelId(businessId, channelId).Some?
    }

    /**
     * updateChannel: saves the channel as given, stamped with the update
     * time. Nothing but the stamp is added to what the caller changed.
     */
    method UpdateChannel(channel: Channel, now: Minutes) returns (saved: Channel)
      requires Valid() && channel.id in channels
      requires channel.businessId == channels[channel.id].businessId && channel.channelId == channels[channel.id].channelId
      modifies this
      ensures Valid() && nextChannelId == old(nextChannelId)
      ensures campaigns == old(campaigns) && nextCampaignId == old(nextCampaignId)
      ensures saved == channel.(updatedAt := now)
      ensures channels == old(channels)[channel.id := saved]
    {
      saved := channel.(updatedAt := now);
      channels := channels[channel.id := saved];
    }

    /** deleteChannel: the row is gone, whether or not it existed. */
    method DeleteChannel(id: int)
      requires Valid()
      modifies this
      ensures Valid() && nextChannelId == old(nextChannelId)
      ensures campaigns == old(campaigns) && channels == old(channels) - {id}
    {
      channels := channels - {id};
    }

    /**
     * autoRegisterChat: the chat the bot was added to, registered once.
     * An already registered chat is returned as it is; otherwise one active
     * channel is created, untitled and PRIVATE unless told otherwise. A
     * failing database (`storeFails`) yields nothing and writes nothing.
     */
    method AutoRegisterChat(businessId: int, chatId: string, chatTitle: Option<string>, chatType: Option<string>,
                            storeFails: bool, now: Minutes)
      returns (r: Option<Channel>)
      requires Valid()
      modifies this
      ensures Valid() && campaigns == old(campaigns) && nextCampaignId == old(nextCampaignId)
      ensures old(ChannelExists(businessId, chatId)) ==>
                r == old(FindChannelByBusinessIdAndChannelId(businessId, chatId))
                && channels == old(channels) && nextChannelId == old(nextChannelId)
      ensures !old(ChannelExists(businessId, chatId)) && storeFails ==>
                r.None? && channels == old(channels) && nextChannelId == old(nextChannelId)
      ensures !old(ChannelExists(businessId, chatId)) && !storeFails ==>
                r == Some(Channel(old(nextChannelId), businessId, chatId, Some(chatTitle.GetOr(UNTITLED_CHAT)),
                                  chatType.GetOr("PRIVATE"), true, false, None, None, now, now))
                && channels == old(channels)[old(nextChannelId) := r.value]
      ensures r.Some? ==> FindChannelByBusinessIdAndChannelId(businessId, chatId) == r
    {
      var existing := FindChannelByBusinessIdAndChannelId(businessId, chatId);
      if existing.Some? {
        return existing;
      }
      if storeFails {
        return None;
      }
      var created := Insert(Channel(nextChannelId, businessId, chatId, Some(chatTitle.GetOr(UNTITLED_CHAT)),
                                    chatType.GetOr("PRIVATE"), true, false, None, None, now, now));
      r := Some(created.value);
      assert channels[r.value.id] == r.value;
    }

    // ----- campaigns -----

    /** createCampaign: a DRAFT campaign with a disabled ONCE schedule. */
    method CreateCampaign(businessId: int, title: string, messageText: string, createdByUserId: int, now: Minutes)
      returns (c: Campaign)
      requires Valid()
      modifies this
      ensures Valid() && channels == old(channels) && nextChannelId == old(nextChannelId)
      ensures c == Campaign(old(nextCampaignId), businessId, title, messageText, "DRAFT", createdByUserId,
                            false, "ONCE", None, None, None, None, now, now)
      ensures old(nextCampaignId) !in old(campaigns)
      ensures campaigns == old(campaigns)[old(nextCampaignId) := c] && nextCampaignId == old(nextCampaignId) + 1
      ensures !Due(c, now)
    {
      c := Campaign(nextCampaignId, businessId, title, messageText, "DRAFT", createdByUserId,
                    false, "ONCE", None, None, None, None, now, now);
      campaigns := campaigns[nextCampaignId := c];
      nextCampaignId := nextCampaignId + 1;
    }

    function FindCampaignById(id: int): (r: Option<Campaign>)
      reads this
      ensures r.Some? <==> id in campaigns
      ensures r.Some? ==> r.value == campaigns[id]
    {
      if id in campaigns then Some(campaigns[id]) else None
    }

    /** findCampaignsByBusinessId. */
    function FindCampaignsByBusinessId(businessId: int): (r: seq<Campaign>)
      reads this
      requires Valid()
      ensures forall c :: c in r <==> c in campaigns.Values && c.businessId == businessId
    {
      RowsAreValues(campaigns, nextCampaignId);
      Filter(Rows(campaigns, nextCampaignId), (c: Campaign) => c.businessId == businessId)
    }

    /** updateCampaign: saves the campaign as given, stamped with the update time. */
    method UpdateCampaign(campaign: Campaign, now: Minutes) returns (saved: Campaign)
      requires Valid() && campaign.id in campaigns
      modifies this
      ensures Valid() && nextCampaignId == old(nextCampaignId)
      ensures channels == old(channels) && nextChannelId == old(nextChannelId)
      ensures saved == campaign.(updatedAt := now)
      ensures campaigns == old(campaigns)[campaign.id := saved]
    {
      saved := campaign.(updatedAt := now);
      campaigns := campaigns[campaign.id := saved];
    }

    /** deleteCampaign: the row is gone, whether or not it existed. */
    method DeleteCampaign(id: int)
      requires Valid()
      modifies this
      ensures Valid() && nextCampaignId == old(nextCampaignId)
      ensures channels == old(channels) && campaigns == old(campaigns) - {id}
    {
      campaigns := campaigns - {id};
    }

    /**
     * findCampaignsDueForSending: every campaign whose schedule is on and
     * whose next send time has come, each once, in id order.
     */
    function FindCampaignsDueForSending(now: Minutes): (r: seq<Campaign>)
      reads this
      requires Valid()
      ensures forall c :: c in r <==> c in campaigns.Values && Due(c, now)
      ensures forall i :: 0 <= i < |r| ==> r[i].id in campaigns && campaigns[r[i].id] == r[i]
      ensures forall i, j :: 0 <= i < j < |r| ==> r[i].id != r[j].id
    {
      RowsAreValues(campaigns, nextCampaignId);
      RowsDistinct(campaigns, nextCampaignId);
      var r := Filter(Rows(campaigns, nextCampaignId), (c: Campaign) => Due(c, now));
      FilterDistinct(Rows(campaigns, nextCampaignId), (c: Campaign) => Due(c, now));
      assert forall i :: 0 <= i < |r| ==> r[i] in r;
      r
    }

    /**
     * updateNextSendTime: stamps the send time and moves the schedule on,
     * then saves. When the stored minute or hour is out of range the time
     * arithmetic throws after the stamp and before the save: the table is
     * unchanged and the caller is left holding the stamped campaign.
     */
    method UpdateNextSendTime(campaign: Campaign, now: Minutes) returns (r: Result<Campaign>)
      requires Valid() && campaign.id in campaigns
      modifies this
      ensures Valid() && nextCampaignId == old(nextCampaignId)
      ensures channels == old(channels) && nextChannelId == old(nextChannelId)
      ensures r.Fail? <==> Next(campaign.scheduleType, campaign.scheduleIntervalHours, now).OutOfRange?
      ensures r.Fail? ==> campaigns == old(campaigns)
      ensures r.Ok? ==> r.value == Rescheduled(campaign, now).(updatedAt := now)
                        && campaigns == old(campaigns)[campaign.id := r.value]
    {
      if Next(campaign.scheduleType, campaign.scheduleIntervalHours, now).OutOfRange? {
        return Fail("DateTimeException");
      }
      var saved := UpdateCampaign(Rescheduled(campaign, now), now);
      r := Ok(saved);
    }
  }
}
