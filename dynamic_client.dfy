/**
 * One pooled Telegram user client: a handle on the underlying TDLight
 * client with an authenticated flag that gates every send, a last-used
 * instant reported back to the account table, and a rate limiter.
 *
 * The underlying client is an oracle: each request's answer is passed in
 * as a `Reply`. The rate limiter only blocks, so the model counts the
 * permits taken instead of waiting.
 */
module DynamicClient {
  import opened Common
  import opened Domain
  import opened AccountPoolDb

  /** What the underlying client answered to a request, or that waiting for it threw. */
  datatype Reply =
    | MessageReply(messageId: int)
    | ChatReply(chatId: int)
    | ChatsReply(chatIds: seq<int>)
    | UserReply
    | OtherReply
    | Thrown(message: string)

  /** The account table after the last-used callback for `accountId` at `now`. */
  function Touched(accounts: map<int, Account>, accountId: Option<int>, now: Minutes): (r: map<int, Account>)
    ensures accountId.None? || accountId.value !in accounts ==> r == accounts
    ensures accountId.Some? && accountId.value in accounts ==>
              r.Keys == accounts.Keys && r[accountId.value].lastUsedAt == Some(now)
              && forall k :: k in accounts && k != accountId.value ==> r[k] == accounts[k]
    ensures r.Keys == accounts.Keys
    ensures forall k :: k in r ==> r[k].(lastUsedAt := accounts[k].lastUsedAt, updatedAt := accounts[k].updatedAt) == accounts[k]
  {
    if accountId.Some? && accountId.value in accounts then
      accounts[accountId.value := accounts[accountId.value].(lastUsedAt := Some(now), updatedAt := now)]
    else accounts
  }

  /** The chats a `getChats` listing yields: those whose own lookup answered with a chat. */
  function FetchedChats(chatIds: seq<int>, lookup: int -> Reply): (r: seq<int>)
    ensures |r| <= |chatIds|
    ensures forall c :: c in r ==> exists i :: 0 <= i < |chatIds| && lookup(chatIds[i]) == ChatReply(c)
  {
    if chatIds == [] then []
    else
      var rest := FetchedChats(chatIds[1..], lookup);
      match lookup(chatIds[0])
        case ChatReply(c) => [c] + rest
        case _ => rest
  }

  function NotAuthenticated(sessionName: string): string
  {
    "Client not authenticated for account: " + sessionName
  }

  const UNEXPECTED_RESPONSE: string := "Unexpected response type"

  class DynamicTelegramClient {
    const sessionName: string
    const accountId: Option<int>
    /** Receiver of the last-used callback (the pool manager forwards it to the account table). */
    const db: AccountPoolDbService
    var isAuthenticated: bool
    var lastUsedAt: Minutes
    /** Whether `close` has been called. */
    var closeCalled: bool
    /** Rate-limiter permits taken so far. */
    var permitsTaken: nat

    constructor(sessionName: string, accountId: Option<int>, db: AccountPoolDbService, now: Minutes)
      ensures this.sessionName == sessionName && this.accountId == accountId && this.db == db
      ensures !isAuthenticated && lastUsedAt == now && !closeCalled && permitsTaken == 0
    {
      this.sessionName := sessionName;
      this.accountId := accountId;
      this.db := db;
      isAuthenticated := false;
      lastUsedAt := now;
      closeCalled := false;
      permitsTaken := 0;
    }

    method MarkAsAuthenticated()
      modifies this
      ensures isAuthenticated
      ensures lastUsedAt == old(lastUsedAt) && closeCalled == old(closeCalled)
      ensures permitsTaken == old(permitsTaken)
    {
      isAuthenticated := true;
    }

    /**
     * Stamps the client and, when the account has an id, reports the stamp
     * to the account table; a failure of that report is swallowed.
     */
    method UpdateLastUsedAt(now: Minutes)
      requires db.Valid()
      modifies this, db
      ensures db.Valid()
      ensures lastUsedAt == now
      ensures isAuthenticated == old(isAuthenticated) && closeCalled == old(closeCalled)
      ensures permitsTaken == old(permitsTaken)
      ensures db.accounts == Touched(old(db.accounts), accountId, now)
      ensures db.sessions == old(db.sessions) && db.nextAccountId == old(db.nextAccountId)
      ensures db.nextSessionId == old(db.nextSessionId)
    {
      lastUsedAt := now;
      if accountId.Some? {
        var _ := db.UpdateAccountLastUsedAt(accountId.value, now);
      }
    }

    /**
     * sendMessage: refused while unauthenticated; otherwise takes a permit,
     * sends, and stamps the client only if the answer is a message.
     */
    method SendMessage(chatId: int, text: string, reply: Reply, now: Minutes) returns (r: Result<int>)
      requires db.Valid()
      modifies this, db
      ensures db.Valid()
      ensures isAuthenticated == old(isAuthenticated) && closeCalled == old(closeCalled)
      ensures db.sessions == old(db.sessions)
      ensures !old(isAuthenticated) ==>
                r == Fail(NotAuthenticated(sessionName)) && permitsTaken == old(permitsTaken)
                && lastUsedAt == old(lastUsedAt) && db.accounts == old(db.accounts)
      ensures old(isAuthenticated) ==> permitsTaken == old(permitsTaken) + 1
      ensures old(isAuthenticated) && reply.MessageReply? ==>
                r == Ok(reply.messageId) && lastUsedAt == now
                && db.accounts == Touched(old(db.accounts), accountId, now)
      ensures old(isAuthenticated) && !reply.MessageReply? ==>
                r.Fail? && lastUsedAt == old(lastUsedAt) && db.accounts == old(db.accounts)
    {
      if !isAuthenticated {
        return Fail(NotAuthenticated(sessionName));
      }
      permitsTaken := permitsTaken + 1;
      match reply {
        case MessageReply(id) =>
          UpdateLastUsedAt(now);
          r := Ok(id);
        case Thrown(message) =>
          r := Fail(message);
        case _ =>
          r := Fail(UNEXPECTED_RESPONSE);
      }
    }

    /** getChat: refused while unauthenticated; takes no permit. */
    method GetChat(chatId: int, reply: Reply, now: Minutes) returns (r: Result<int>)
      requires db.Valid()
      modifies this, db
      ensures db.Valid()
      ensures isAuthenticated == old(isAuthenticated) && closeCalled == old(closeCalled)
      ensures permitsTaken == old(permitsTaken)
      ensures db.sessions == old(db.sessions)
      ensures !old(isAuthenticated) ==>
                r == Fail(NotAuthenticated(sessionName))
                && lastUsedAt == old(lastUsedAt) && db.accounts == old(db.accounts)
      ensures old(isAuthenticated) && reply.ChatReply? ==>
                r == Ok(reply.chatId) && lastUsedAt == now
                && db.accounts == Touched(old(db.accounts), accountId, now)
      ensures old(isAuthenticated) && !reply.ChatReply? ==>
                r.Fail? && lastUsedAt == old(lastUsedAt) && db.accounts == old(db.accounts)
    {
      if !isAuthenticated {
        return Fail(NotAuthenticated(sessionName));
      }
      match reply {
        case ChatReply(c) =>
          UpdateLastUsedAt(now);
          r := Ok(c);
        case Thrown(message) =>
          r := Fail(message);
        case _ =>
          r := Fail(UNEXPECTED_RESPONSE);
      }
    }

    /** getMe, the health probe: no authentication guard and no permit. */
    method GetMe(reply: Reply, now: Minutes) returns (r: Result<()>)
      requires db.Valid()
      modifies this, db
      ensures db.Valid()
      ensures isAuthenticated == old(isAuthenticated) && closeCalled == old(closeCalled)
      ensures permitsTaken == old(permitsTaken)
      ensures db.sessions == old(db.sessions)
      ensures reply.Thrown? ==>
                r == Fail(reply.message) && lastUsedAt == old(lastUsedAt) && db.accounts == old(db.accounts)
      ensures !reply.Thrown? ==>
                r == Ok(()) && lastUsedAt == now && db.accounts == Touched(old(db.accounts), accountId, now)
    {
      if reply.Thrown? {
        return Fail(reply.message);
      }
      UpdateLastUsedAt(now);
      r := Ok(());
    }

    /** joinChatByInviteLink: refused while unauthenticated; takes a permit first. */
    method JoinChatByInviteLink(inviteLink: string, reply: Reply, now: Minutes) returns (r: Result<int>)
      requires db.Valid()
      modifies this, db
      ensures db.Valid()
      ensures isAuthenticated == old(isAuthenticated) && closeCalled == old(closeCalled)
      ensures db.sessions == old(db.sessions)
      ensures !old(isAuthenticated) ==>
                r == Fail(NotAuthenticated(sessionName)) && permitsTaken == old(permitsTaken)
                && lastUsedAt == old(lastUsedAt) && db.accounts == old(db.accounts)
      ensures old(isAuthenticated) ==> permitsTaken == old(permitsTaken) + 1
      ensures old(isAuthenticated) && reply.ChatReply? ==>
                r == Ok(reply.chatId) && lastUsedAt == now
                && db.accounts == Touched(old(db.accounts), accountId, now)
      ensures old(isAuthenticated) && !reply.ChatReply? ==>
                r.Fail? && lastUsedAt == old(lastUsedAt) && db.accounts == old(db.accounts)
    {
      if !isAuthenticated {
        return Fail(NotAuthenticated(sessionName));
      }
      permitsTaken := permitsTaken + 1;
      match reply {
        case ChatReply(c) =>
          UpdateLastUsedAt(now);
          r := Ok(c);
        case Thrown(message) =>
          r := Fail(message);
        case _ =>
          r := Fail(UNEXPECTED_RESPONSE);
      }
    }

    /**
     * getChats: refused while unauthenticated; a chat whose own lookup
     * fails is skipped, and the client is stamped once the listing is done.
     */
    method GetChats(limit: int, reply: Reply, lookup: int -> Reply, now: Minutes) returns (r: Result<seq<int>>)
      requires db.Valid()
      modifies this, db
      ensures db.Valid()
      ensures isAuthenticated == old(isAuthenticated) && closeCalled == old(closeCalled)
      ensures permitsTaken == old(permitsTaken)
      ensures db.sessions == old(db.sessions)
      ensures !old(isAuthenticated) ==>
                r == Fail(NotAuthenticated(sessionName))
                && lastUsedAt == old(lastUsedAt) && db.accounts == old(db.accounts)
      ensures old(isAuthenticated) && reply.ChatsReply? ==>
                r == Ok(FetchedChats(reply.chatIds, lookup)) && lastUsedAt == now
                && db.accounts == Touched(old(db.accounts), accountId, now)
      ensures old(isAuthenticated) && !reply.ChatsReply? ==>
                r.Fail? && lastUsedAt == old(lastUsedAt) && db.accounts == old(db.accounts)
    {
      if !isAuthenticated {
        return Fail(NotAuthenticated(sessionName));
      }
      match reply {
        case ChatsReply(ids) =>
          var chats := FetchedChats(ids, lookup);
          UpdateLastUsedAt(now);
          r := Ok(chats);
        case Thrown(message) =>
          r := Fail(message);
        case _ =>
          r := Fail(UNEXPECTED_RESPONSE);
      }
    }

    /**
     * close: the flag is cleared before the underlying close, which may
     * throw; that exception is logged, so the client always ends
     * unauthenticated.
     */
    method Close()
      modifies this
      ensures !isAuthenticated && closeCalled
      ensures lastUsedAt == old(lastUsedAt) && permitsTaken == old(permitsTaken)
    {
      isAuthenticated := false;
      closeCalled := true;
    }
  }
}
