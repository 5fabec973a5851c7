/**
 * The superadmin bot's dialog: the menu buttons, and the step-by-step
 * dialogs that activate a business (owner's Telegram id, name,
 * description), block one (id, reason) and unblock one (id). Only a user
 * whose role is SUPERADMIN is served at all.
 */
module SuperAdminDialog {
  import opened Common
  import opened Domain
  import opened ConversationStore
  import opened SuperAdmin
  import opened Messages

  // Menu buttons
  const LIST_BUSINESSES: string := "📋 Список бизнесов"
  const ACTIVATE_BUSINESS: string := "➕ Активировать бизнес"
  const ACCESS_MANAGEMENT: string := "🔒 Управление доступом"
  const STATISTICS: string := "📊 Статистика"
  const HELP: string := "❓ Помощь"
  const BLOCK_BUSINESS: string := "🚫 Заблокировать бизнес"
  const UNBLOCK_BUSINESS: string := "✅ Разблокировать бизнес"
  const BACK_TO_MENU: string := "◀️ Назад в меню"
  const POOL_MENU: string := "📱 Telegram аккаунты"
  const LIST_ACCOUNTS: string := "📋 Список аккаунтов"
  const POOL_STATUS: string := "📊 Статус пула"

  const MENU_COMMANDS: set<string> := {
    LIST_BUSINESSES, ACTIVATE_BUSINESS, ACCESS_MANAGEMENT, STATISTICS, HELP, BLOCK_BUSINESS,
    UNBLOCK_BUSINESS, BACK_TO_MENU, POOL_MENU, LIST_ACCOUNTS, POOL_STATUS
  }

  // Context keys of the dialogs
  const KEY_TELEGRAM_ID: string := "activateTelegramId"
  const KEY_BUSINESS_NAME: string := "activateBusinessName"
  const KEY_BLOCK_ID: string := "blockBusinessId"
  const KEY_BLOCK_NAME: string := "blockBusinessName"

  /** Shown for a blocked business whose name the context lost. */
  const UNKNOWN_NAME: string := "???"

  const MIN_NAME_LENGTH: nat := 3
  const MAX_NAME_LENGTH: nat := 255
  const MIN_REASON_LENGTH: nat := 3

  /** The states of the activation dialog. */
  predicate ActivationState(state: ConversationState)
  {
    state.SUPERADMIN_ACTIVATE_ENTER_TELEGRAM_ID? || state.SUPERADMIN_ACTIVATE_ENTER_NAME?
    || state.SUPERADMIN_ACTIVATE_ENTER_DESCRIPTION?
  }

  /** The states of the block and unblock dialogs. */
  predicate BlockingState(state: ConversationState)
  {
    state.SUPERADMIN_BLOCK_ENTER_ID? || state.SUPERADMIN_BLOCK_ENTER_REASON? || state.SUPERADMIN_UNBLOCK_ENTER_ID?
  }

  /** What the bot answers; the data each reply renders, not its text. */
  datatype SuperAdminReply =
    | Forbidden
    | Welcome
    | Cancelled
    | StateError
    | UnknownCommand
    // menu
    | BusinessList(businesses: seq<BusinessInfo>)
    | AskOwnerTelegramId
    | AccessMenu
    | Statistics(total: nat, active: nat, blocked: nat)
    | Help
    | AskBlockId(businesses: seq<BusinessInfo>)
    | NoBlockedBusinesses
    | AskUnblockId(blockedBusinesses: seq<BusinessInfo>)
    | MainMenu
    | PoolMenu
    | AccountList
    | PoolStatus
    // activation
    | BadTelegramId
    | AskBusinessName(telegramId: int)
    | NameTooShort
    | NameTooLong
    | AskDescription(name: string)
    | MissingTelegramId
    | MissingBusinessName
    | Activated(ownerTelegramId: int, result: ActivationResult, description: Option<string>)
    // blocking and unblocking
    | BadBusinessId
    | BusinessNotFound(businessId: int)
    | AskBlockReason(businessId: int, name: string)
    | ReasonTooShort
    | MissingBlockId
    | BusinessBlocked(businessId: int, name: string, reason: string)
    | BlockFailed(businessId: int)
    | BusinessUnblocked(businessId: int)
    | UnblockNotFound(businessId: int)

  /** handleStatistics: how many businesses there are, active and blocked. */
  function BusinessStatistics(businesses: seq<BusinessInfo>): (r: SuperAdminReply)
    ensures r.Statistics? && r.total == |businesses|
    ensures r.active == Count(businesses, (b: BusinessInfo) => b.isActive)
    ensures r.active + r.blocked == r.total
  {
    var active := (b: BusinessInfo) => b.isActive;
    var blocked := (b: BusinessInfo) => !b.isActive;
    CountComplement(businesses, active, blocked);
    Statistics(|businesses|, Count(businesses, active), Count(businesses, blocked))
  }

  /** The businesses an unblock can apply to. */
  function Blocked(businesses: seq<BusinessInfo>): (r: seq<BusinessInfo>)
    ensures forall b :: b in r <==> b in businesses && !b.isActive
    ensures r == [] <==> forall i :: 0 <= i < |businesses| ==> businesses[i].isActive
  {
    var r := Filter(businesses, (b: BusinessInfo) => !b.isActive);
    assert r == [] ==> forall i :: 0 <= i < |businesses| ==> businesses[i] !in r;
    assert r != [] ==> r[0] in r && r[0] in businesses && !r[0].isActive;
    r
  }

  /**
   * The answer to a menu button outside any dialog, given the business
   * list: the cancel button cancels, each button its own view, anything
   * else is unknown.
   */
  function Menu(command: string, businesses: seq<BusinessInfo>): (r: SuperAdminReply)
    ensures r == Cancelled <==> command == CANCEL
    ensures r == MainMenu <==> command == BACK_TO_MENU
    ensures r == AskOwnerTelegramId <==> command == ACTIVATE_BUSINESS
    ensures r.AskBlockId? <==> command == BLOCK_BUSINESS
    ensures r.AskUnblockId? <==> command == UNBLOCK_BUSINESS && Blocked(businesses) != []
    ensures r == UnknownCommand <==> command != CANCEL && command !in MENU_COMMANDS
    ensures command == LIST_BUSINESSES ==> r == BusinessList(businesses)
    ensures command == BLOCK_BUSINESS ==> r == AskBlockId(businesses)
    ensures r == NoBlockedBusinesses <==>
              command == UNBLOCK_BUSINESS && forall i :: 0 <= i < |businesses| ==> businesses[i].isActive
    ensures r.AskUnblockId? ==>
              command == UNBLOCK_BUSINESS && r.blockedBusinesses != []
              && forall b :: b in r.blockedBusinesses <==> b in businesses && !b.isActive
    ensures r.Statistics? ==> command == STATISTICS && r.total == |businesses| && r.active + r.blocked == r.total
  {
    if command == CANCEL then Cancelled
    else if command == LIST_BUSINESSES then BusinessList(businesses)
    else if command == ACTIVATE_BUSINESS then AskOwnerTelegramId
    else if command == ACCESS_MANAGEMENT then AccessMenu
    else if command == STATISTICS then BusinessStatistics(businesses)
    else if command == HELP then Help
    else if command == BLOCK_BUSINESS then AskBlockId(businesses)
    else if command == UNBLOCK_BUSINESS then
      var blocked := Blocked(businesses);
      if blocked == [] then NoBlockedBusinesses else AskUnblockId(blocked)
    else if command == BACK_TO_MENU then MainMenu
    else if command == POOL_MENU then PoolMenu
    else if command == LIST_ACCOUNTS then AccountList
    else if command == POOL_STATUS then PoolStatus
    else UnknownCommand
  }

  /** The business with this id in a listing, the first one if several. */
  function FindById(businesses: seq<BusinessInfo>, id: int): (r: Option<BusinessInfo>)
    ensures r.Some? <==> exists i :: 0 <= i < |businesses| && businesses[i].id == id
    ensures r.Some? ==> r.value in businesses && r.value.id == id
  {
    if businesses == [] then None
    else if businesses[0].id == id then Some(businesses[0])
    else FindById(businesses[1..], id)
  }

  /** The stored description: the trimmed input, or none for "-". */
  function DescriptionValue(text: string): Option<string>
  {
    var description := Trim(text);
    if description == "-" then None else Some(description)
  }

  class SuperAdminTelegramService {
    const service: SuperAdminService
    const stateManager: ConversationStateManager

    ghost predicate Valid()
      reads this, service, service.userDb
    {
      service.Valid()
    }

    constructor(service: SuperAdminService, stateManager: ConversationStateManager)
      requires service.Valid()
      ensures Valid() && this.service == service && this.stateManager == stateManager
    {
      this.service := service;
      this.stateManager := stateManager;
    }

    /** The user's state and context are gone. */
    twostate predicate Cleared(userId: int)
      reads stateManager
    {
      stateManager.states == old(stateManager.states) - {userId}
      && stateManager.contexts == old(stateManager.contexts) - {userId}
    }

    /** The user's state is `state`; contexts are untouched. */
    twostate predicate MovedTo(userId: int, state: ConversationState)
      reads stateManager
    {
      stateManager.states == old(stateManager.states)[userId := state]
      && stateManager.contexts == old(stateManager.contexts)
    }

    /** The state a menu answer leaves the user in. */
    twostate predicate MenuEffect(userId: int, reply: SuperAdminReply)
      reads stateManager
    {
      (reply == Cancelled || reply == MainMenu ==> Cleared(userId))
      && (reply == AskOwnerTelegramId ==> MovedTo(userId, SUPERADMIN_ACTIVATE_ENTER_TELEGRAM_ID))
      && (reply.AskBlockId? ==> MovedTo(userId, SUPERADMIN_BLOCK_ENTER_ID))
      && (reply.AskUnblockId? ==> MovedTo(userId, SUPERADMIN_UNBLOCK_ENTER_ID))
      && (!(reply in {Cancelled, MainMenu, AskOwnerTelegramId} || reply.AskBlockId? || reply.AskUnblockId?) ==>
            unchanged(stateManager))
    }

    /** The Telegram id step: a Long after trimming is kept and the name asked for. */
    twostate predicate TelegramIdStep(userId: int, text: string, reply: SuperAdminReply)
      reads this, service, service.userDb, stateManager
    {
      var id := ToLongOrNull(Trim(text));
      unchanged(service, service.userDb)
      && (id.None? ==> reply == BadTelegramId && unchanged(stateManager))
      && (id.Some? ==>
            reply == AskBusinessName(id.value)
            && stateManager.states == old(stateManager.states)[userId := SUPERADMIN_ACTIVATE_ENTER_NAME]
            && stateManager.contexts ==
                 old(stateManager.contexts)[userId := old(stateManager.GetContext(userId))[KEY_TELEGRAM_ID := Num(id.value)]])
    }

    /** The name step: a trimmed name of 3 to 255 characters is kept and the description asked for. */
    twostate predicate NameStep(userId: int, text: string, reply: SuperAdminReply)
      reads this, service, service.userDb, stateManager
    {
      var name := Trim(text);
      var length := Utf16Length(name);
      unchanged(service, service.userDb)
      && (length < MIN_NAME_LENGTH ==> reply == NameTooShort && unchanged(stateManager))
      && (length > MAX_NAME_LENGTH ==> reply == NameTooLong && unchanged(stateManager))
      && (MIN_NAME_LENGTH <= length <= MAX_NAME_LENGTH ==>
            reply == AskDescription(name)
            && stateManager.states == old(stateManager.states)[userId := SUPERADMIN_ACTIVATE_ENTER_DESCRIPTION]
            && stateManager.contexts ==
                 old(stateManager.contexts)[userId := old(stateManager.GetContext(userId))[KEY_BUSINESS_NAME := Text(name)]])
    }

    /**
     * The description step: with the id and name from the context the
     * business is activated ("-" for no description); the dialog ends
     * whatever the outcome.
     */
    twostate predicate DescriptionStep(userId: int, text: string, reply: SuperAdminReply, now: Minutes)
      reads this, service, service.userDb, stateManager
    {
      var telegramId := NumValue(old(stateManager.GetContextValue(userId, KEY_TELEGRAM_ID)));
      var name := TextValue(old(stateManager.GetContextValue(userId, KEY_BUSINESS_NAME)));
      var description := DescriptionValue(text);
      old(service.Valid()) && service.Valid()
      && Cleared(userId)
      && (telegramId.None? ==> reply == MissingTelegramId && unchanged(service, service.userDb))
      && (telegramId.Some? && name.None? ==> reply == MissingBusinessName && unchanged(service, service.userDb))
      && (telegramId.Some? && name.Some? ==>
            reply.Activated? && reply.ownerTelegramId == telegramId.value && reply.description == description
            && (reply.result.BusinessAlreadyExists? <==> old(ChatTaken(service.businesses, telegramId.value)))
            && (reply.result.BusinessAlreadyExists? ==> service.businesses == old(service.businesses))
            && (reply.result.Success? ==>
                  service.businesses == old(service.businesses)[reply.result.businessId :=
                    Business(reply.result.businessId, name.value, telegramId.value, description, true, now, now)]
                  && service.userDb.IsBusinessRepresentative(telegramId.value)))
    }

    /** The block id step: an existing business's id and name are kept and the reason asked for. */
    twostate predicate BlockIdStep(userId: int, text: string, reply: SuperAdminReply)
      reads this, service, service.userDb, stateManager
    {
      var id := ToLongOrNull(Trim(text));
      unchanged(service, service.userDb)
      && (id.None? ==> reply == BadBusinessId && unchanged(stateManager))
      && (id.Some? && id.value !in service.businesses ==> reply == BusinessNotFound(id.value) && unchanged(stateManager))
      && (id.Some? && id.value in service.businesses ==>
            var name := service.businesses[id.value].name;
            reply == AskBlockReason(id.value, name)
            && stateManager.states == old(stateManager.states)[userId := SUPERADMIN_BLOCK_ENTER_REASON]
            && stateManager.contexts ==
                 old(stateManager.contexts)[userId :=
                   old(stateManager.GetContext(userId))[KEY_BLOCK_ID := Num(id.value)][KEY_BLOCK_NAME := Text(name)]])
    }

    /**
     * The block reason step: a reason of at least 3 characters blocks the
     * business kept in the context; the dialog ends after the attempt.
     */
    twostate predicate BlockReasonStep(userId: int, text: string, reply: SuperAdminReply, now: Minutes)
      reads this, service, service.userDb, stateManager
    {
      var reason := Trim(text);
      service.Valid() && unchanged(service.userDb)
      && (Utf16Length(reason) < MIN_REASON_LENGTH ==>
            reply == ReasonTooShort && unchanged(service, stateManager))
      && (Utf16Length(reason) >= MIN_REASON_LENGTH ==> ReasonGiven(userId, reason, reply, now))
    }

    /** A reason long enough: the business kept in the context is blocked, if one is kept. */
    twostate predicate ReasonGiven(userId: int, reason: string, reply: SuperAdminReply, now: Minutes)
      reads this, service, service.userDb, stateManager
    {
      var id := NumValue(old(stateManager.GetContextValue(userId, KEY_BLOCK_ID)));
      var name := TextValue(old(stateManager.GetContextValue(userId, KEY_BLOCK_NAME))).GetOr(UNKNOWN_NAME);
      (id.None? ==> reply == MissingBlockId && Cleared(userId) && unchanged(service))
      && (id.Some? ==> BlockDone(userId, id.value, name, reason, reply, now))
    }

    /** Blocking a chosen business: it is blocked if it exists, and the dialog ends either way. */
    twostate predicate BlockDone(userId: int, id: int, name: string, reason: string, reply: SuperAdminReply, now: Minutes)
      reads this, service, service.userDb, stateManager
    {
      service.Valid() && unchanged(service.userDb) && Cleared(userId)
      && (id in old(service.businesses) ==>
            reply == BusinessBlocked(id, name, reason)
            && service.businesses == old(service.businesses)[id :=
                 old(service.businesses)[id].(isActive := false, updatedAt := now)])
      && (id !in old(service.businesses) ==> reply == BlockFailed(id) && service.businesses == old(service.businesses))
    }

    /** The unblock id step: the business is unblocked if it exists; the dialog ends after the attempt. */
    twostate predicate UnblockIdStep(userId: int, text: string, reply: SuperAdminReply, now: Minutes)
      reads this, service, service.userDb, stateManager
    {
      var id := ToLongOrNull(Trim(text));
      service.Valid() && unchanged(service.userDb)
      && (id.None? ==> reply == BadBusinessId && unchanged(service, stateManager))
      && (id.Some? ==> Cleared(userId))
      && (id.Some? && id.value in old(service.businesses) ==>
            reply == BusinessUnblocked(id.value)
            && service.businesses == old(service.businesses)[id.value :=
                 old(service.businesses)[id.value].(isActive := true, updatedAt := now)])
      && (id.Some? && id.value !in old(service.businesses) ==>
            reply == UnblockNotFound(id.value) && service.businesses == old(service.businesses))
    }

    /** One message inside a dialog, dispatched on the state the user was in. */
    twostate predicate DialogOutcome(message: IncomingMessage, reply: SuperAdminReply, now: Minutes)
      reads this, service, service.userDb, stateManager
    {
      var userId, text := message.userId, message.text;
      var state := old(stateManager.GetState(userId));
      (text == CANCEL ==> reply == Cancelled && Cleared(userId) && unchanged(service, service.userDb))
      && (text != CANCEL && !ActivationState(state) && !BlockingState(state) ==>
            reply == StateError && Cleared(userId) && unchanged(service, service.userDb))
      && (text != CANCEL && ActivationState(state) ==> ActivationOutcome(userId, text, state, reply, now))
      && (text != CANCEL && BlockingState(state) ==> BlockingOutcome(userId, text, state, reply, now))
    }

    /** A message in one of the activation states. */
    twostate predicate ActivationOutcome(userId: int, text: string, state: ConversationState,
                                         reply: SuperAdminReply, now: Minutes)
      reads this, service, service.userDb, stateManager
    {
      (state == SUPERADMIN_ACTIVATE_ENTER_TELEGRAM_ID ==> TelegramIdStep(userId, text, reply))
      && (state == SUPERADMIN_ACTIVATE_ENTER_NAME ==> NameStep(userId, text, reply))
      && (state == SUPERADMIN_ACTIVATE_ENTER_DESCRIPTION ==> DescriptionStep(userId, text, reply, now))
    }

    /** A message in one of the block and unblock states. */
    twostate predicate BlockingOutcome(userId: int, text: string, state: ConversationState,
                                       reply: SuperAdminReply, now: Minutes)
      reads this, service, service.userDb, stateManager
    {
      (state == SUPERADMIN_BLOCK_ENTER_ID ==> BlockIdStep(userId, text, reply))
      && (state == SUPERADMIN_BLOCK_ENTER_REASON ==> BlockReasonStep(userId, text, reply, now))
      && (state == SUPERADMIN_UNBLOCK_ENTER_ID ==> UnblockIdStep(userId, text, reply, now))
    }

    /** The listed business with this id, looked up in listAllBusinesses. */
    function FindBusiness(id: int): (r: Option<BusinessInfo>)
      reads this, service, service.userDb
      requires Valid()
      ensures r.Some? <==> id in service.businesses
      ensures r.Some? ==> r.value.id == id && r.value.name == service.businesses[id].name
    {
      var listing := service.ListAllBusinesses();
      var r := FindById(listing, id);
      assert id in service.businesses ==> exists i :: 0 <= i < |listing| && listing[i].id == id;
      r
    }

    /** Keeps `value` under `key` in the user's context and moves the user to `next`. */
    method Advance(userId: int, key: string, value: Value, next: ConversationState)
      modifies stateManager
      ensures stateManager.states == old(stateManager.states)[userId := next]
      ensures stateManager.contexts ==
                old(stateManager.contexts)[userId := old(stateManager.GetContext(userId))[key := value]]
    {
      stateManager.SetContextValue(userId, key, value);
      stateManager.SetState(userId, next);
    }

    /** handleStart: the dialog, if any, is dropped. */
    method HandleStart(message: IncomingMessage) returns (reply: SuperAdminReply)
      modifies stateManager
      ensures reply == Welcome && Cleared(message.userId)
    {
      stateManager.ClearState(message.userId);
      reply := Welcome;
    }

    /**
     * handleCommand: anyone but a superadmin is refused before anything is
     * read or written; inside a dialog the message goes to the dialog;
     * otherwise the button is answered from the menu.
     */
    method HandleCommand(message: IncomingMessage, command: string, now: Minutes) returns (reply: SuperAdminReply)
      requires Valid()
      modifies service, service.userDb, stateManager
      ensures Valid()
      ensures !old(service.IsSuperAdmin(message.userId)) ==>
                reply == Forbidden && unchanged(service, service.userDb, stateManager)
      ensures old(service.IsSuperAdmin(message.userId)) && old(stateManager.GetState(message.userId)) == NONE ==>
                reply == Menu(command, old(service.ListAllBusinesses()))
                && unchanged(service, service.userDb) && MenuEffect(message.userId, reply)
      ensures old(service.IsSuperAdmin(message.userId)) && old(stateManager.GetState(message.userId)) != NONE ==>
                DialogOutcome(message, reply, now)
    {
      if !service.IsSuperAdmin(message.userId) {
        return Forbidden;
      }
      if stateManager.GetState(message.userId) != NONE {
        reply := HandleConversationState(message, now);
        return;
      }
      var businesses := service.ListAllBusinesses();
      reply := HandleMenu(message.userId, command, businesses);
    }

    /** The cancel button and the `when` over the menu buttons. */
    method HandleMenu(userId: int, command: string, businesses: seq<BusinessInfo>) returns (reply: SuperAdminReply)
      modifies stateManager
      ensures reply == Menu(command, businesses)
      ensures MenuEffect(userId, reply)
    {
      reply := Menu(command, businesses);
      if command == CANCEL || command == BACK_TO_MENU {
        stateManager.ClearState(userId);
      } else if command == ACTIVATE_BUSINESS {
        stateManager.SetState(userId, SUPERADMIN_ACTIVATE_ENTER_TELEGRAM_ID);
      } else if command == BLOCK_BUSINESS {
        stateManager.SetState(userId, SUPERADMIN_BLOCK_ENTER_ID);
      } else if command == UNBLOCK_BUSINESS && Blocked(businesses) != [] {
        stateManager.SetState(userId, SUPERADMIN_UNBLOCK_ENTER_ID);
      }
    }

    /** handleConversationState. */
    method HandleConversationState(message: IncomingMessage, now: Minutes) returns (reply: SuperAdminReply)
      requires Valid()
      modifies service, service.userDb, stateManager
      ensures Valid()
      ensures DialogOutcome(message, reply, now)
    {
      var userId, text := message.userId, message.text;
      var state := stateManager.GetState(userId);
      if text == CANCEL {
        stateManager.ClearState(userId);
        return Cancelled;
      }
      if ActivationState(state) {
        reply := ActivationInput(userId, text, state, now);
      } else if BlockingState(state) {
        reply := BlockingInput(userId, text, state, now);
      } else {
        stateManager.ClearState(userId);
        reply := StateError;
      }
    }

    /** The `when` branches of the activation dialog. */
    method ActivationInput(userId: int, text: string, state: ConversationState, now: Minutes)
      returns (reply: SuperAdminReply)
      requires Valid() && ActivationState(state)
      modifies service, service.userDb, stateManager
      ensures Valid()
      ensures ActivationOutcome(userId, text, state, reply, now)
    {
      if state == SUPERADMIN_ACTIVATE_ENTER_TELEGRAM_ID {
        reply := ActivateTelegramIdInput(userId, text);
      } else if state == SUPERADMIN_ACTIVATE_ENTER_NAME {
        reply := ActivateNameInput(userId, text);
      } else {
        reply := ActivateDescriptionInput(userId, text, now);
      }
    }

    /** The `when` branches of the block and unblock dialogs. */
    method BlockingInput(userId: int, text: string, state: ConversationState, now: Minutes)
      returns (reply: SuperAdminReply)
      requires Valid() && BlockingState(state)
      modifies service, service.userDb, stateManager
      ensures Valid()
      ensures BlockingOutcome(userId, text, state, reply, now)
    {
      if state == SUPERADMIN_BLOCK_ENTER_ID {
        reply := BlockIdInput(userId, text);
      } else if state == SUPERADMIN_BLOCK_ENTER_REASON {
        reply := BlockReasonInput(userId, text, now);
      } else {
        reply := UnblockIdInput(userId, text, now);
      }
    }

    /** handleActivateTelegramIdInput. */
    method ActivateTelegramIdInput(userId: int, text: string) returns (reply: SuperAdminReply)
      modifies stateManager
      ensures TelegramIdStep(userId, text, reply)
    {
      var telegramId := ToLongOrNull(Trim(text));
      if telegramId.None? {
        return BadTelegramId;
      }
      Advance(userId, KEY_TELEGRAM_ID, Num(telegramId.value), SUPERADMIN_ACTIVATE_ENTER_NAME);
      reply := AskBusinessName(telegramId.value);
    }

    /** handleActivateNameInput. */
    method ActivateNameInput(userId: int, text: string) returns (reply: SuperAdminReply)
      modifies stateManager
      ensures NameStep(userId, text, reply)
    {
      var name := Trim(text);
      if Utf16Length(name) < MIN_NAME_LENGTH {
        return NameTooShort;
      }
      if Utf16Length(name) > MAX_NAME_LENGTH {
        return NameTooLong;
      }
      Advance(userId, KEY_BUSINESS_NAME, Text(name), SUPERADMIN_ACTIVATE_ENTER_DESCRIPTION);
      reply := AskDescription(name);
    }

    /** handleActivateDescriptionInput; the owner's names are left unset. */
    method ActivateDescriptionInput(userId: int, text: string, now: Minutes) returns (reply: SuperAdminReply)
      requires Valid()
      modifies service, service.userDb, stateManager
      ensures Valid()
      ensures DescriptionStep(userId, text, reply, now)
    {
      var description := DescriptionValue(text);
      var telegramId := NumValue(stateManager.GetContextValue(userId, KEY_TELEGRAM_ID));
      if telegramId.None? {
        stateManager.ClearState(userId);
        return MissingTelegramId;
      }
      var name := TextValue(stateManager.GetContextValue(userId, KEY_BUSINESS_NAME));
      if name.None? {
        stateManager.ClearState(userId);
        return MissingBusinessName;
      }
      var result := service.ActivateBusiness(telegramId.value, name.value, description, None, None, None, now);
      stateManager.ClearState(userId);
      reply := Activated(telegramId.value, result, description);
    }

    /** handleBlockIdInput: the id is looked up in the business listing. */
    method BlockIdInput(userId: int, text: string) returns (reply: SuperAdminReply)
      requires Valid()
      modifies stateManager
      ensures BlockIdStep(userId, text, reply)
    {
      var businessId := ToLongOrNull(Trim(text));
      if businessId.None? {
        return BadBusinessId;
      }
      var business := FindBusiness(businessId.value);
      if business.None? {
        return BusinessNotFound(businessId.value);
      }
      ChooseForBlocking(userId, businessId.value, business.value.name);
      reply := AskBlockReason(businessId.value, business.value.name);
    }

    /** Keeps the chosen business's id and name and asks for the reason. */
    method ChooseForBlocking(userId: int, businessId: int, name: string)
      modifies stateManager
      ensures stateManager.states == old(stateManager.states)[userId := SUPERADMIN_BLOCK_ENTER_REASON]
      ensures stateManager.contexts ==
                old(stateManager.contexts)[userId :=
                  old(stateManager.GetContext(userId))[KEY_BLOCK_ID := Num(businessId)][KEY_BLOCK_NAME := Text(name)]]
    {
      ghost var contexts := stateManager.contexts;
      ghost var withId := stateManager.GetContext(userId)[KEY_BLOCK_ID := Num(businessId)];
      stateManager.SetContextValue(userId, KEY_BLOCK_ID, Num(businessId));
      Advance(userId, KEY_BLOCK_NAME, Text(name), SUPERADMIN_BLOCK_ENTER_REASON);
      Overwrite(contexts, userId, withId, withId[KEY_BLOCK_NAME := Text(name)]);
    }

    /** handleBlockReasonInput. */
    method BlockReasonInput(userId: int, text: string, now: Minutes) returns (reply: SuperAdminReply)
      requires Valid()
      modifies service, stateManager
      ensures Valid()
      ensures BlockReasonStep(userId, text, reply, now)
    {
      var reason := Trim(text);
      if Utf16Length(reason) < MIN_REASON_LENGTH {
        return ReasonTooShort;
      }
      reply := BlockWithReason(userId, reason, now);
    }

    /** handleBlockReasonInput once the reason is long enough. */
    method BlockWithReason(userId: int, reason: string, now: Minutes) returns (reply: SuperAdminReply)
      requires Valid()
      modifies service, stateManager
      ensures Valid() && unchanged(service.userDb)
      ensures ReasonGiven(userId, reason, reply, now)
    {
      var businessId := NumValue(stateManager.GetContextValue(userId, KEY_BLOCK_ID));
      if businessId.None? {
        stateManager.ClearState(userId);
        return MissingBlockId;
      }
      var name := TextValue(stateManager.GetContextValue(userId, KEY_BLOCK_NAME)).GetOr(UNKNOWN_NAME);
      reply := BlockChosen(userId, businessId.value, name, reason, now);
    }

    /** The end of handleBlockReasonInput: the block itself, then the dialog is over. */
    method BlockChosen(userId: int, businessId: int, name: string, reason: string, now: Minutes)
      returns (reply: SuperAdminReply)
      requires Valid()
      modifies service, stateManager
      ensures BlockDone(userId, businessId, name, reason, reply, now)
    {
      var success := service.BlockBusiness(businessId, Some(reason), now);
      stateManager.ClearState(userId);
      reply := if success then BusinessBlocked(businessId, name, reason) else BlockFailed(businessId);
    }

    /** handleUnblockIdInput. */
    method UnblockIdInput(userId: int, text: string, now: Minutes) returns (reply: SuperAdminReply)
      requires Valid()
      modifies service, stateManager
      ensures Valid()
      ensures UnblockIdStep(userId, text, reply, now)
    {
      var businessId := ToLongOrNull(Trim(text));
      if businessId.None? {
        return BadBusinessId;
      }
      var success := service.UnblockBusiness(businessId.value, now);
      stateManager.ClearState(userId);
      reply := if success then BusinessUnblocked(businessId.value) else UnblockNotFound(businessId.value);
    }
  }
}
