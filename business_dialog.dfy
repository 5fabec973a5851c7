/**
 * The business bot's dialogs: creating a vacancy step by step, building
 * its questionnaire (for a new vacancy in the conversation context, for a
 * vacancy being edited straight into the question table), viewing an
 * application or a vacancy, changing the status of either, deleting a
 * question by its number, and setting a campaign's schedule. Each message
 * inside a dialog goes to the step of the state the representative is in.
 */
module BusinessDialog {
  import opened Common
  import opened Domain
  import opened ConversationStore
  import opened VacancyDb
  import opened QuestionDb
  import opened ApplicationDb
  import opened UserDb
  import opened BroadcastDb
  import opened BusinessInputs
  import opened Messages

  // Context keys of the dialogs
  const KEY_TITLE: string := "title"
  const KEY_DESCRIPTION: string := "description"
  const KEY_LOCATION: string := "location"
  const KEY_SALARY: string := "salary"
  const KEY_PENDING: string := "pendingQuestions"
  const KEY_EDITING: string := "editingExistingVacancy"
  const KEY_VACANCY_ID: string := "vacancyId"
  const KEY_QUESTION_TEXT: string := "questionText"
  const KEY_QUESTION_TYPE: string := "questionType"
  const KEY_QUESTION_OPTIONS: string := "questionOptions"
  const KEY_ADDING_MORE: string := "addingMoreQuestions"
  const KEY_VACANCY_CODE: string := "vacancyCode"
  const KEY_VACANCY_TITLE: string := "vacancyTitle"
  const KEY_VACANCY_STATUS: string := "vacancyStatus"
  const KEY_APPLICATION: string := "currentApplicationId"
  const KEY_CURRENT_VACANCY: string := "currentVacancyId"
  const KEY_CAMPAIGN: string := "selectedCampaignId"
  const KEY_SCHEDULE_TYPE: string := "scheduleType"

  /** Shown for a code or title the context lost. */
  const UNKNOWN_CODE: string := "???"

  /** The schedule type of the fifth menu entry, and its step in minutes. */
  const QUARTER_HOUR_TYPE: string := "EVERY_15_MINUTES"

  /** The value under a key of a context, if there is one. */
  function ValueAt(context: Context, key: string): (v: Option<Value>)
    ensures v.Some? <==> key in context
    ensures v.Some? ==> v.value == context[key]
  {
    if key in context then Some(context[key]) else None
  }

  /** Whether the questionnaire belongs to a saved vacancy being edited, and which one. */
  function EditedVacancy(context: Context): Option<int>
  {
    if FlagValue(ValueAt(context, KEY_EDITING)).GetOr(false) then NumValue(ValueAt(context, KEY_VACANCY_ID))
    else None
  }

  /** The questions collected so far for a new vacancy. */
  function PendingOf(context: Context): seq<PendingQuestion>
  {
    PendingValue(ValueAt(context, KEY_PENDING)).GetOr([])
  }

  /** The context once a question is added: its draft is reset and more questions are offered. */
  function ResetDraft(context: Context): Context
  {
    context[KEY_QUESTION_TEXT := Text("")][KEY_QUESTION_TYPE := Text("")]
           [KEY_QUESTION_OPTIONS := Texts([])][KEY_ADDING_MORE := Flag(true)]
  }

  /** Which business the representative acts for: the business of their first link. */
  datatype Access = NoUser | NoBusiness | Member(businessId: int)

  /** What the bot answers; the data each reply renders, not its text. */
  datatype BusinessReply =
    | Cancelled
    | StateError
    | NotModelled(state: ConversationState)
    // creating a vacancy
    | TitleTooShort
    | TitleTooLong
    | AskDescription(title: string)
    | DescriptionTooShort
    | AskLocation
    | AskSalary(location: Option<string>)
    | AskQuestionnaire(salary: Option<string>)
    | Preview(title: string, description: string, location: Option<string>, salary: Option<string>,
              questions: seq<PendingQuestion>)
    | AskQuestionText(defaultsAdded: bool)
    | UnknownQuestionnaireAnswer
    | VacancyReady(code: string, vacancyTitle: string, published: bool, questionCount: nat)
    // adding a question
    | QuestionTooShort
    | AskQuestionType(text: string)
    | BadQuestionType
    | AskOptions
    | AskRequired(qtype: QuestionType)
    | NoOptions
    | TooFewOptions
    | OptionsAccepted(items: seq<string>)
    | UnknownRequiredAnswer
    | UnknownQuestionType(name: string)
    | QuestionAdded
    // vacancies and applications
    | VacancyNotFound(code: string)
    | UserNotFound
    | NoBusinessAccess
    | VacancyForbidden
    | VacancyDetails(vacancy: Vacancy)
    | ApplicationNotFound(applicationId: int)
    | ApplicationVacancyNotFound
    | ApplicationForbidden
    | ApplicantNotFound
    | ApplicationDetails(applicationId: int, status: ApplicationStatus)
    | MissingApplication
    | BadApplicationStatus
    | StatusUpdateFailed
    | ApplicationStatusChanged(newStatus: ApplicationStatus)
    | MissingVacancy
    | BadVacancyStatus
    // the questionnaire menu
    | BadQuestionNumber
    | QuestionNumberTooLarge(number: int, count: nat)
    | QuestionDeleted(text: string)
    // campaign schedules
    | NoCampaignSelected
    | CampaignNotFound
    | AskScheduleValue(scheduleType: string)
    | ScheduleSwitchedOff
    | QuarterHourSchedule(next: Minutes)
    | BadScheduleChoice
    | NoScheduleType
    | ScheduleValueNotNumber
    | ScheduleValueOutOfRange(scheduleType: string)
    | UnknownScheduleTypeReply
    | ScheduleSet(scheduleType: string, value: int, next: Minutes)

  /** showVacancyPreview: what the context holds, missing texts shown empty. */
  function PreviewOf(context: Context): (r: BusinessReply)
    ensures r.Preview? && r.questions == PendingOf(context)
    ensures r.location == TextValue(ValueAt(context, KEY_LOCATION))
    ensures r.salary == TextValue(ValueAt(context, KEY_SALARY))
  {
    Preview(TextValue(ValueAt(context, KEY_TITLE)).GetOr(""), TextValue(ValueAt(context, KEY_DESCRIPTION)).GetOr(""),
            TextValue(ValueAt(context, KEY_LOCATION)), TextValue(ValueAt(context, KEY_SALARY)), PendingOf(context))
  }

  /** The schedule type stored for the first three schedule menu entries. */
  function ScheduleTypeOf(choice: ScheduleChoice): string
  {
    match choice
    case EveryHour => "HOURLY"
    case EveryDay => "DAILY"
    case EveryNHours => "CUSTOM"
    case _ => ""
  }

  /** The states of the vacancy creation dialog. */
  predicate CreationState(state: ConversationState)
  {
    state.VACANCY_CREATE_TITLE? || state.VACANCY_CREATE_DESCRIPTION? || state.VACANCY_CREATE_LOCATION?
    || state.VACANCY_CREATE_SALARY? || state.VACANCY_CREATE_QUESTIONNAIRE_CHOICE?
  }

  /** The states of adding and deleting a question. */
  predicate QuestionState(state: ConversationState)
  {
    state.QUESTION_ADD_TEXT? || state.QUESTION_ADD_TYPE? || state.QUESTION_ADD_OPTIONS?
    || state.QUESTION_ADD_REQUIRED? || state.QUESTIONNAIRE_DELETE_ENTER_NUMBER?
  }

  /** The states of a status change and of a schedule. */
  predicate SettingState(state: ConversationState)
  {
    state.CHANGING_APPLICATION_STATUS? || state.VACANCY_CHANGE_STATUS?
    || state.BROADCAST_CAMPAIGN_SCHEDULE_TYPE? || state.BROADCAST_CAMPAIGN_SCHEDULE_TIME?
  }

  /** The states handleConversationState has a branch for: every state but those of the other two bots. */
  predicate BusinessState(state: ConversationState)
  {
    !(state.NONE? || state.APPLICANT_CONFIRM_VACANCY? || state.APPLICANT_ANSWERING_QUESTION?
      || state.SUPERADMIN_ACTIVATE_ENTER_TELEGRAM_ID? || state.SUPERADMIN_ACTIVATE_ENTER_NAME?
      || state.SUPERADMIN_ACTIVATE_ENTER_DESCRIPTION? || state.SUPERADMIN_BLOCK_ENTER_ID?
      || state.SUPERADMIN_BLOCK_ENTER_REASON? || state.SUPERADMIN_UNBLOCK_ENTER_ID?)
  }

  /** The business states whose step is part of this model. */
  predicate ModelledState(state: ConversationState)
  {
    CreationState(state) || QuestionState(state) || SettingState(state)
  }

  /** Three new rows of a vacancy under fresh keys add three to its question count. */
  lemma {:induction false} CountGrows(before: map<int, Question>, after: map<int, Question>, vacancyId: int, n: int,
                   created: seq<Question>)
    requires |created| == 3
    requires forall i :: 0 <= i < 3 ==> n + i !in before && created[i].vacancyId == vacancyId
    requires after == before[n := created[0]][n + 1 := created[1]][n + 2 := created[2]]
    ensures |set k | k in after && after[k].vacancyId == vacancyId|
            == |set k | k in before && before[k].vacancyId == vacancyId| + 3
  {
    var keysBefore := set k | k in before && before[k].vacancyId == vacancyId;
    var keysAfter := set k | k in after && after[k].vacancyId == vacancyId;
    assert keysAfter == keysBefore + {n, n + 1, n + 2};
    assert keysBefore !! {n, n + 1, n + 2};
  }

  /** The unique code of a stored vacancy finds that vacancy. */
  lemma {:induction false} CodeFindsVacancy(db: VacancyDbService, id: int)
    requires db.Valid() && id in db.vacancies
    ensures db.FindByCode(db.vacancies[id].code) == Some(db.vacancies[id])
  {
    var found := db.FindByCode(db.vacancies[id].code);
    assert found.Some?;
    assert found.value.id == id;
  }

  /**
   * The default questions a new vacancy's questionnaire offers are the ones
   * the question store adds for the defaults: same text, same type, same
   * required flag, same order index.
   */
  lemma {:induction false} PendingDefaultsAreStoredDefaults(questions: map<int, Question>, n: int, vacancyId: int,
                                                            now: Minutes)
    ensures var qs := DefaultPendingQuestions();
            var stored := DefaultsAdded(questions, n, vacancyId, now);
            forall i :: 0 <= i < 3 ==>
              n + i in stored
              && qs[i].text == stored[n + i].text
              && qs[i].typeName == TypeName(stored[n + i].qtype)
              && qs[i].isRequired == stored[n + i].isRequired
              && qs[i].orderIndex == Some(stored[n + i].orderIndex)
  {
  }

  /** Every state this model covers is a business state. */
  lemma {:induction false} ModelledStatesAreBusinessStates(state: ConversationState)
    requires ModelledState(state)
    ensures BusinessState(state)
  {
  }

  class BusinessTelegramService {
    const stateManager: ConversationStateManager
    const vacancyDb: VacancyDbService
    const questionDb: QuestionDbService
    const applicationDb: ApplicationDbService
    const userDb: UserDbService
    const broadcastDb: BroadcastDbService

    ghost predicate Valid()
      reads this, vacancyDb, questionDb, applicationDb, userDb, broadcastDb
    {
      vacancyDb.Valid() && questionDb.Valid() && applicationDb.Valid() && userDb.Valid() && broadcastDb.Valid()
    }

    constructor(stateManager: ConversationStateManager, vacancyDb: VacancyDbService, questionDb: QuestionDbService,
                applicationDb: ApplicationDbService, userDb: UserDbService, broadcastDb: BroadcastDbService)
      requires vacancyDb.Valid() && questionDb.Valid() && applicationDb.Valid() && userDb.Valid() && broadcastDb.Valid()
      ensures Valid() && this.stateManager == stateManager && this.vacancyDb == vacancyDb
      ensures this.questionDb == questionDb && this.applicationDb == applicationDb
      ensures this.userDb == userDb && this.broadcastDb == broadcastDb
    {
      this.stateManager := stateManager;
      this.vacancyDb := vacancyDb;
      this.questionDb := questionDb;
      this.applicationDb := applicationDb;
      this.userDb := userDb;
      this.broadcastDb := broadcastDb;
    }

    /** The user's state and context are gone. */
    twostate predicate Cleared(userId: int)
      reads stateManager
    {
      stateManager.states == old(stateManager.states) - {userId}
      && stateManager.contexts == old(stateManager.contexts) - {userId}
    }

    /** The user's state is `state`; contexts are untouched. */
    twostate predicate MovedTo(userId: int, state: ConversationState)
      reads stateManager
    {
      stateManager.states == old(stateManager.states)[userId := state]
      && stateManager.contexts == old(stateManager.contexts)
    }

    /** The user's state is `state` and their context is `context`; no other user's changes. */
    twostate predicate Became(userId: int, context: Context, state: ConversationState)
      reads stateManager
    {
      stateManager.states == old(stateManager.states)[userId := state]
      && stateManager.contexts == old(stateManager.contexts)[userId := context]
    }

    /** `value` is kept under `key` and the user moves to `state`. */
    twostate predicate Kept(userId: int, key: string, value: Value, state: ConversationState)
      reads stateManager
    {
      Became(userId, old(stateManager.GetContext(userId))[key := value], state)
    }

    /**
     * The business of a representative: the user with this Telegram id,
     * and the business of the user's first link (in id order).
     */
    function BusinessOf(telegramId: int): (r: Access)
      reads this, userDb
      requires userDb.Valid()
      ensures r.NoUser? <==> !Known(userDb.users, telegramId)
      ensures r.NoBusiness? ==>
                var user := userDb.FindByTelegramId(telegramId).value;
                forall b :: b in userDb.businessUsers.Values ==> b.userId != user.id
      ensures r.Member? ==>
                exists b :: b in userDb.businessUsers.Values && b.businessId == r.businessId
                            && b.userId == userDb.FindByTelegramId(telegramId).value.id
      ensures r.Member? ==>
                r.businessId == userDb.FindLinksByUserId(userDb.FindByTelegramId(telegramId).value.id)[0].businessId
    {
      match userDb.FindByTelegramId(telegramId)
      case None => NoUser
      case Some(user) =>
        var links := userDb.FindLinksByUserId(user.id);
        if links == [] then NoBusiness
        else
          assert links[0] in links;
          Member(links[0].businessId)
    }

    /**
     * handleViewVacancyByCode: the vacancy with the code, shown only to a
     * representative of its business, who is then left on its details.
     */
    twostate predicate VacancyShown(userId: int, code: string, found: Option<Vacancy>, access: Access,
                                    reply: BusinessReply)
      reads stateManager
    {
      (found.None? ==> reply == VacancyNotFound(code) && unchanged(stateManager))
      && (found.Some? && access.NoUser? ==> reply == UserNotFound && unchanged(stateManager))
      && (found.Some? && access.NoBusiness? ==> reply == NoBusinessAccess && unchanged(stateManager))
      && (found.Some? && access.Member? && found.value.businessId != access.businessId ==>
            reply == VacancyForbidden && unchanged(stateManager))
      && (found.Some? && access.Member? && found.value.businessId == access.businessId ==>
            reply == VacancyDetails(found.value)
            && Kept(userId, KEY_CURRENT_VACANCY, Num(found.value.id), VIEWING_VACANCY_DETAILS))
    }

    /** Keeps `value` under `key` in the user's context and moves the user to `next`. */
    method Advance(userId: int, key: string, value: Value, next: ConversationState)
      modifies stateManager
      ensures Kept(userId, key, value, next)
    {
      stateManager.SetContextValue(userId, key, value);
      stateManager.SetState(userId, next);
    }

    // -------------------------------------------------------------------
    // Creating a vacancy
    // -------------------------------------------------------------------

    /** The title step: a trimmed title of 5 to 255 characters is kept and the description asked for. */
    twostate predicate TitleStep(userId: int, text: string, reply: BusinessReply)
      reads stateManager
    {
      var title := Trim(text);
      var length := Utf16Length(title);
      (length < MIN_TITLE_LENGTH ==> reply == TitleTooShort && unchanged(stateManager))
      && (length > MAX_TITLE_LENGTH ==> reply == TitleTooLong && unchanged(stateManager))
      && (MIN_TITLE_LENGTH <= length <= MAX_TITLE_LENGTH ==>
            reply == AskDescription(title) && Kept(userId, KEY_TITLE, Text(title), VACANCY_CREATE_DESCRIPTION))
    }

    /** handleVacancyTitleInput. */
    method TitleInput(userId: int, text: string) returns (reply: BusinessReply)
      modifies stateManager
      ensures TitleStep(userId, text, reply)
    {
      var title := Trim(text);
      if Utf16Length(title) < MIN_TITLE_LENGTH {
        return TitleTooShort;
      }
      if Utf16Length(title) > MAX_TITLE_LENGTH {
        return TitleTooLong;
      }
      Advance(userId, KEY_TITLE, Text(title), VACANCY_CREATE_DESCRIPTION);
      reply := AskDescription(title);
    }

    /** The description step: a trimmed description of at least 20 characters is kept. */
    twostate predicate DescriptionStep(userId: int, text: string, reply: BusinessReply)
      reads stateManager
    {
      var description := Trim(text);
      (Utf16Length(description) < MIN_DESCRIPTION_LENGTH ==> reply == DescriptionTooShort && unchanged(stateManager))
      && (Utf16Length(description) >= MIN_DESCRIPTION_LENGTH ==>
            reply == AskLocation && Kept(userId, KEY_DESCRIPTION, Text(description), VACANCY_CREATE_LOCATION))
    }

    /** handleVacancyDescriptionInput. */
    method DescriptionInput(userId: int, text: string) returns (reply: BusinessReply)
      modifies stateManager
      ensures DescriptionStep(userId, text, reply)
    {
      var description := Trim(text);
      if Utf16Length(description) < MIN_DESCRIPTION_LENGTH {
        return DescriptionTooShort;
      }
      Advance(userId, KEY_DESCRIPTION, Text(description), VACANCY_CREATE_LOCATION);
      reply := AskLocation;
    }

    /** The location step: always accepted; "-" skips it and nothing is stored. */
    twostate predicate LocationStep(userId: int, text: string, reply: BusinessReply)
      reads stateManager
    {
      var location := OptionalField(text);
      reply == AskSalary(location)
      && (location.None? ==> MovedTo(userId, VACANCY_CREATE_SALARY))
      && (location.Some? ==> Kept(userId, KEY_LOCATION, Text(location.value), VACANCY_CREATE_SALARY))
    }

    /** handleVacancyLocationInput. */
    method LocationInput(userId: int, text: string) returns (reply: BusinessReply)
      modifies stateManager
      ensures LocationStep(userId, text, reply)
    {
      var location := OptionalField(text);
      if location.Some? {
        Advance(userId, KEY_LOCATION, Text(location.value), VACANCY_CREATE_SALARY);
      } else {
        stateManager.SetState(userId, VACANCY_CREATE_SALARY);
      }
      reply := AskSalary(location);
    }

    /**
     * The salary step: always accepted ("-" stores nothing); the list of
     * pending questions starts empty and the questionnaire is offered.
     */
    twostate predicate SalaryStep(userId: int, text: string, reply: BusinessReply)
      reads stateManager
    {
      var salary := OptionalField(text);
      var before := old(stateManager.GetContext(userId));
      var withSalary := if salary.Some? then before[KEY_SALARY := Text(salary.value)] else before;
      reply == AskQuestionnaire(salary)
      && Became(userId, withSalary[KEY_PENDING := Pending([])], VACANCY_CREATE_QUESTIONNAIRE_CHOICE)
    }

    /** handleVacancySalaryInput. */
    method SalaryInput(userId: int, text: string) returns (reply: BusinessReply)
      modifies stateManager
      ensures SalaryStep(userId, text, reply)
    {
      var salary := OptionalField(text);
      if salary.Some? {
        ghost var contexts := stateManager.contexts;
        ghost var withSalary := stateManager.GetContext(userId)[KEY_SALARY := Text(salary.value)];
        stateManager.SetContextValue(userId, KEY_SALARY, Text(salary.value));
        Advance(userId, KEY_PENDING, Pending([]), VACANCY_CREATE_QUESTIONNAIRE_CHOICE);
        Overwrite(contexts, userId, withSalary, withSalary[KEY_PENDING := Pending([])]);
      } else {
        Advance(userId, KEY_PENDING, Pending([]), VACANCY_CREATE_QUESTIONNAIRE_CHOICE);
      }
      reply := AskQuestionnaire(salary);
    }

    /**
     * The questionnaire step of a new vacancy: the defaults are appended
     * and the preview shown; adding starts with the defaults when nothing
     * is pending yet; finishing or skipping shows the preview.
     */
    twostate predicate PendingChoiceStep(userId: int, action: QuestionnaireAction, reply: BusinessReply)
      reads stateManager
    {
      var before := old(stateManager.GetContext(userId));
      var pending := PendingOf(before);
      (action == UseDefaults ==>
         var after := before[KEY_PENDING := Pending(pending + DefaultPendingQuestions())];
         reply == PreviewOf(after) && Became(userId, after, VACANCY_CREATE_PREVIEW))
      && (action == AddOwn ==>
            var started := if pending == [] then DefaultPendingQuestions() else pending;
            reply == AskQuestionText(pending == [])
            && Became(userId, before[KEY_PENDING := Pending(started)], QUESTION_ADD_TEXT))
      && (action == Finish || action == SkipQuestions ==>
            reply == PreviewOf(before) && MovedTo(userId, VACANCY_CREATE_PREVIEW))
      && (action == UnknownAction ==> reply == UnknownQuestionnaireAnswer && unchanged(stateManager))
    }

    /** The new-vacancy half of handleQuestionnaireChoice. */
    method PendingChoice(userId: int, action: QuestionnaireAction) returns (reply: BusinessReply)
      modifies stateManager
      ensures PendingChoiceStep(userId, action, reply)
    {
      var pending := PendingValue(stateManager.GetContextValue(userId, KEY_PENDING)).GetOr([]);
      assert pending == PendingOf(stateManager.GetContext(userId));
      match action
      case UseDefaults =>
        stateManager.SetContextValue(userId, KEY_PENDING, Pending(pending + DefaultPendingQuestions()));
        reply := ShowPreview(userId);
      case AddOwn =>
        var started := if pending == [] then DefaultPendingQuestions() else pending;
        Advance(userId, KEY_PENDING, Pending(started), QUESTION_ADD_TEXT);
        reply := AskQuestionText(pending == []);
      case Finish =>
        reply := ShowPreview(userId);
      case SkipQuestions =>
        reply := ShowPreview(userId);
      case UnknownAction =>
        reply := UnknownQuestionnaireAnswer;
    }

    /** showVacancyPreview: the collected data, and the user waits on the preview. */
    method ShowPreview(userId: int) returns (reply: BusinessReply)
      modifies stateManager
      ensures reply == PreviewOf(old(stateManager.GetContext(userId)))
      ensures MovedTo(userId, VACANCY_CREATE_PREVIEW)
    {
      var context := stateManager.GetContext(userId);
      assert forall key :: ValueAt(context, key) == stateManager.GetContextValue(userId, key);
      reply := PreviewOf(context);
      stateManager.SetState(userId, VACANCY_CREATE_PREVIEW);
    }

    /**
     * finishVacancyCreation, given the context it starts from: a vacancy
     * being edited whose code is known is shown again; otherwise the
     * dialog ends with the summary, counting the questions saved for the
     * vacancy id in the context.
     */
    twostate predicate Finished(userId: int, context: Context, reply: BusinessReply)
      reads this, stateManager, vacancyDb, questionDb, userDb
    {
      var code := TextValue(ValueAt(context, KEY_VACANCY_CODE)).GetOr(UNKNOWN_CODE);
      var title := TextValue(ValueAt(context, KEY_VACANCY_TITLE)).GetOr(UNKNOWN_CODE);
      var status := TextValue(ValueAt(context, KEY_VACANCY_STATUS)).GetOr("DRAFT");
      var vacancyId := NumValue(ValueAt(context, KEY_VACANCY_ID));
      var editing := FlagValue(ValueAt(context, KEY_EDITING)).GetOr(false);
      vacancyDb.Valid() && questionDb.Valid() && userDb.Valid()
      && (editing && code != UNKNOWN_CODE ==>
            VacancyShown(userId, code, vacancyDb.FindByCode(code), BusinessOf(userId), reply))
      && (!(editing && code != UNKNOWN_CODE) ==>
            var count := if vacancyId.Some? then |questionDb.FindByVacancyId(vacancyId.value)| else 0;
            reply == VacancyReady(code, title, status == "ACTIVE", count) && Cleared(userId))
    }

    /** finishVacancyCreation. */
    method FinishVacancyCreation(userId: int) returns (reply: BusinessReply)
      requires vacancyDb.Valid() && questionDb.Valid() && userDb.Valid()
      modifies stateManager
      ensures Finished(userId, old(stateManager.GetContext(userId)), reply)
    {
      var context := stateManager.GetContext(userId);
      assert forall key :: ValueAt(context, key) == stateManager.GetContextValue(userId, key);
      var code := TextValue(ValueAt(context, KEY_VACANCY_CODE)).GetOr(UNKNOWN_CODE);
      var title := TextValue(ValueAt(context, KEY_VACANCY_TITLE)).GetOr(UNKNOWN_CODE);
      var status := TextValue(ValueAt(context, KEY_VACANCY_STATUS)).GetOr("DRAFT");
      var vacancyId := NumValue(ValueAt(context, KEY_VACANCY_ID));
      var editing := FlagValue(ValueAt(context, KEY_EDITING)).GetOr(false);
      var count := if vacancyId.Some? then |questionDb.FindByVacancyId(vacancyId.value)| else 0;
      if editing && code != UNKNOWN_CODE {
        reply := ViewVacancyByCode(userId, code);
        return;
      }
      stateManager.ClearState(userId);
      reply := VacancyReady(code, title, status == "ACTIVE", count);
    }

    /**
     * The questionnaire step of a vacancy being edited: the defaults are
     * saved and the creation finished; adding saves the defaults first
     * when the vacancy has no question yet; finishing or skipping
     * finishes.
     */
    twostate predicate EditingChoiceStep(userId: int, vacancyId: int, action: QuestionnaireAction,
                                         reply: BusinessReply, now: Minutes)
      reads this, stateManager, vacancyDb, questionDb, userDb
    {
      old(questionDb.Valid()) && questionDb.Valid()
      && var before := old(stateManager.GetContext(userId));
      var count := old(questionDb.CountByVacancyId(vacancyId));
      ((action == UseDefaults || (action == AddOwn && count == 0)) ==>
            questionDb.questions == DefaultsAdded(old(questionDb.questions), old(questionDb.nextId), vacancyId, now)
            && questionDb.nextId == old(questionDb.nextId) + 3 && questionDb.CountByVacancyId(vacancyId) == count + 3)
      && (!(action == UseDefaults || (action == AddOwn && count == 0)) ==> unchanged(questionDb))
      && (action == UseDefaults || action == Finish || action == SkipQuestions ==> Finished(userId, before, reply))
      && (action == AddOwn ==> reply == AskQuestionText(count == 0) && MovedTo(userId, QUESTION_ADD_TEXT))
      && (action == UnknownAction ==> reply == UnknownQuestionnaireAnswer && unchanged(stateManager))
    }

    /** The edited-vacancy half of handleQuestionnaireChoice. */
    method EditingChoice(userId: int, vacancyId: int, action: QuestionnaireAction, now: Minutes)
      returns (reply: BusinessReply)
      requires Valid()
      modifies stateManager, questionDb
      ensures EditingChoiceStep(userId, vacancyId, action, reply, now)
    {
      match action
      case UseDefaults =>
        reply := DefaultsThenFinish(userId, vacancyId, now);
      case AddOwn =>
        reply := OwnQuestionsForEdited(userId, vacancyId, now);
      case Finish =>
        reply := FinishVacancyCreation(userId);
      case SkipQuestions =>
        reply := FinishVacancyCreation(userId);
      case UnknownAction =>
        reply := UnknownQuestionnaireAnswer;
    }

    /** `findByVacancyId(vacancyId).size`: how many questions the vacancy has. */
    method QuestionCount(vacancyId: int) returns (count: nat)
      requires questionDb.Valid()
      ensures count == questionDb.CountByVacancyId(vacancyId)
    {
      count := |questionDb.FindByVacancyId(vacancyId)|;
    }

    /** The "use the defaults" answer for an edited vacancy: three questions more, then the creation ends. */
    method DefaultsThenFinish(userId: int, vacancyId: int, now: Minutes) returns (reply: BusinessReply)
      requires vacancyDb.Valid() && questionDb.Valid() && userDb.Valid()
      modifies stateManager, questionDb
      ensures EditingChoiceStep(userId, vacancyId, UseDefaults, reply, now)
    {
      ghost var context := stateManager.GetContext(userId);
      AddDefaultQuestions(vacancyId, now);
      assert stateManager.GetContext(userId) == context;
      reply := FinishVacancyCreation(userId);
    }

    /** The "add my own" answer for an edited vacancy: the defaults come first when it has no question. */
    method OwnQuestionsForEdited(userId: int, vacancyId: int, now: Minutes) returns (reply: BusinessReply)
      requires questionDb.Valid()
      modifies stateManager, questionDb
      ensures EditingChoiceStep(userId, vacancyId, AddOwn, reply, now)
    {
      var count := QuestionCount(vacancyId);
      if count == 0 {
        ghost var context := stateManager.GetContext(userId);
        AddDefaultQuestions(vacancyId, now);
        assert stateManager.GetContext(userId) == context;
      }
      stateManager.SetState(userId, QUESTION_ADD_TEXT);
      reply := AskQuestionText(count == 0);
    }

    /** createDefaultQuestions, seen from the vacancy: three more questions. */
    method AddDefaultQuestions(vacancyId: int, now: Minutes)
      requires questionDb.Valid()
      modifies questionDb
      ensures questionDb.Valid() && questionDb.nextId == old(questionDb.nextId) + 3
      ensures questionDb.CountByVacancyId(vacancyId) == old(questionDb.CountByVacancyId(vacancyId)) + 3
      ensures questionDb.questions == DefaultsAdded(old(questionDb.questions), old(questionDb.nextId), vacancyId, now)
    {
      ghost var n := questionDb.nextId;
      var created := questionDb.CreateDefaultQuestions(vacancyId, now);
      CountGrows(old(questionDb.questions), questionDb.questions, vacancyId, n, created);
    }

    /** The questionnaire step: the answer is read trimmed and in lower case. */
    twostate predicate ChoiceStep(userId: int, text: string, reply: BusinessReply, now: Minutes)
      reads this, stateManager, vacancyDb, questionDb, userDb
    {
      var action := ClassifyChoice(Lower(Trim(text)));
      var edited := EditedVacancy(old(stateManager.GetContext(userId)));
      (edited.None? ==> PendingChoiceStep(userId, action, reply) && unchanged(questionDb))
      && (edited.Some? ==> EditingChoiceStep(userId, edited.value, action, reply, now))
    }

    /** handleQuestionnaireChoice. */
    method QuestionnaireChoiceInput(userId: int, text: string, now: Minutes) returns (reply: BusinessReply)
      requires Valid()
      modifies stateManager, questionDb
      ensures Valid()
      ensures ChoiceStep(userId, text, reply, now)
    {
      var action := ClassifyChoice(Lower(Trim(text)));
      var editing := FlagValue(stateManager.GetContextValue(userId, KEY_EDITING)).GetOr(false);
      var vacancyId := NumValue(stateManager.GetContextValue(userId, KEY_VACANCY_ID));
      assert (if editing then vacancyId else None) == EditedVacancy(stateManager.GetContext(userId));
      if editing && vacancyId.Some? {
        reply := EditedVacancyChoice(userId, text, vacancyId.value, now);
      } else {
        reply := PendingChoice(userId, action);
      }
    }

    /** handleQuestionnaireChoice while an existing vacancy is being edited. */
    method EditedVacancyChoice(userId: int, text: string, vacancyId: int, now: Minutes) returns (reply: BusinessReply)
      requires Valid()
      requires EditedVacancy(stateManager.GetContext(userId)) == Some(vacancyId)
      modifies stateManager, questionDb
      ensures Valid()
      ensures ChoiceStep(userId, text, reply, now)
    {
      reply := EditingChoice(userId, vacancyId, ClassifyChoice(Lower(Trim(text))), now);
    }

    // -------------------------------------------------------------------
    // Adding a question
    // -------------------------------------------------------------------

    /** The question text step: a trimmed text of at least 5 characters is kept. */
    twostate predicate QuestionTextStep(userId: int, text: string, reply: BusinessReply)
      reads stateManager
    {
      var question := Trim(text);
      (Utf16Length(question) < MIN_QUESTION_LENGTH ==> reply == QuestionTooShort && unchanged(stateManager))
      && (Utf16Length(question) >= MIN_QUESTION_LENGTH ==>
            reply == AskQuestionType(question) && Kept(userId, KEY_QUESTION_TEXT, Text(question), QUESTION_ADD_TYPE))
    }

    /** handleQuestionTextInput. */
    method QuestionTextInput(userId: int, text: string) returns (reply: BusinessReply)
      modifies stateManager
      ensures QuestionTextStep(userId, text, reply)
    {
      var question := Trim(text);
      if Utf16Length(question) < MIN_QUESTION_LENGTH {
        return QuestionTooShort;
      }
      Advance(userId, KEY_QUESTION_TEXT, Text(question), QUESTION_ADD_TYPE);
      reply := AskQuestionType(question);
    }

    /**
     * The question type step: the type's name is kept; a CHOICE question
     * asks for its options next, any other whether it is required.
     */
    twostate predicate QuestionTypeStep(userId: int, text: string, reply: BusinessReply)
      reads stateManager
    {
      var qtype := ParseQuestionType(Trim(text));
      (qtype.None? ==> reply == BadQuestionType && unchanged(stateManager))
      && (qtype == Some(CHOICE) ==>
            reply == AskOptions && Kept(userId, KEY_QUESTION_TYPE, Text(TypeName(CHOICE)), QUESTION_ADD_OPTIONS))
      && (qtype.Some? && qtype.value != CHOICE ==>
            reply == AskRequired(qtype.value)
            && Kept(userId, KEY_QUESTION_TYPE, Text(TypeName(qtype.value)), QUESTION_ADD_REQUIRED))
    }

    /** handleQuestionTypeInput. */
    method QuestionTypeInput(userId: int, text: string) returns (reply: BusinessReply)
      modifies stateManager
      ensures QuestionTypeStep(userId, text, reply)
    {
      var qtype := ParseQuestionType(Trim(text));
      if qtype.None? {
        return BadQuestionType;
      }
      if qtype.value == CHOICE {
        Advance(userId, KEY_QUESTION_TYPE, Text(TypeName(CHOICE)), QUESTION_ADD_OPTIONS);
        reply := AskOptions;
      } else {
        Advance(userId, KEY_QUESTION_TYPE, Text(TypeName(qtype.value)), QUESTION_ADD_REQUIRED);
        reply := AskRequired(qtype.value);
      }
    }

    /** The options step: at least two non-empty comma-separated options are kept. */
    twostate predicate OptionsStep(userId: int, text: string, reply: BusinessReply)
      reads stateManager
    {
      var input := Trim(text);
      var items := SplitOptions(input);
      (IsBlank(input) ==> reply == NoOptions && unchanged(stateManager))
      && (!IsBlank(input) && |items| < MIN_OPTIONS ==> reply == TooFewOptions && unchanged(stateManager))
      && (!IsBlank(input) && |items| >= MIN_OPTIONS ==>
            reply == OptionsAccepted(items) && Kept(userId, KEY_QUESTION_OPTIONS, Texts(items), QUESTION_ADD_REQUIRED))
    }

    /** handleQuestionOptionsInput. */
    method OptionsInput(userId: int, text: string) returns (reply: BusinessReply)
      modifies stateManager
      ensures OptionsStep(userId, text, reply)
    {
      var input := Trim(text);
      if IsBlank(input) {
        return NoOptions;
      }
      var items := SplitOptions(input);
      if |items| < MIN_OPTIONS {
        return TooFewOptions;
      }
      Advance(userId, KEY_QUESTION_OPTIONS, Texts(items), QUESTION_ADD_REQUIRED);
      reply := OptionsAccepted(items);
    }

    /**
     * The required step: for a vacancy being edited the question is saved
     * at once, for a new one it joins the pending list; then the draft is
     * reset and more questions are offered. A stored type name that is no
     * QuestionType fails before anything is written.
     */
    twostate predicate RequiredStep(userId: int, text: string, reply: BusinessReply, now: Minutes)
      reads this, stateManager, questionDb
    {
      var required := ParseRequired(Lower(Trim(text)));
      var before := old(stateManager.GetContext(userId));
      var question := TextValue(ValueAt(before, KEY_QUESTION_TEXT)).GetOr("");
      var typeName := TextValue(ValueAt(before, KEY_QUESTION_TYPE)).GetOr("TEXT");
      var qtype := TypeFromName(typeName);
      var options := TextsValue(ValueAt(before, KEY_QUESTION_OPTIONS));
      var edited := EditedVacancy(before);
      old(questionDb.Valid()) && questionDb.Valid()
      && (required.None? ==> reply == UnknownRequiredAnswer && unchanged(stateManager, questionDb))
      && (required.Some? && qtype.None? ==>
            reply == UnknownQuestionType(typeName) && unchanged(stateManager, questionDb))
      && (required.Some? && qtype.Some? && edited.Some? ==>
            reply == QuestionAdded && QuestionSaved(userId, edited.value, question, qtype.value, required.value, options))
      && (required.Some? && qtype.Some? && edited.None? ==>
            reply == QuestionAdded && unchanged(questionDb)
            && QuestionPending(userId, PendingQuestion(question, typeName, required.value, None, options)))
    }

    /**
     * A question saved for a vacancy being edited: one new row under the
     * next id, ordered after the vacancy's other questions, with its
     * options only when it is a CHOICE; the draft is reset.
     */
    twostate predicate QuestionSaved(userId: int, vacancyId: int, question: string, qtype: QuestionType,
                                     required: bool, options: Option<seq<string>>)
      reads this, stateManager, questionDb
    {
      var n := old(questionDb.nextId);
      n !in old(questionDb.questions) && n in questionDb.questions
      && questionDb.questions == old(questionDb.questions)[n := questionDb.questions[n]]
      && var q := questionDb.questions[n];
      q.vacancyId == vacancyId && q.text == question && q.qtype == qtype && q.isRequired == required
      && q.options == OptionsColumn(qtype, options)
      && (forall k :: k in old(questionDb.questions) && old(questionDb.questions)[k].vacancyId == vacancyId ==>
            old(questionDb.questions)[k].orderIndex < q.orderIndex)
      && Became(userId, ResetDraft(old(stateManager.GetContext(userId))), VACANCY_CREATE_QUESTIONNAIRE_CHOICE)
    }

    /** A question added to the pending list of a new vacancy; the draft is reset. */
    twostate predicate QuestionPending(userId: int, added: PendingQuestion)
      reads stateManager
    {
      var before := old(stateManager.GetContext(userId));
      Became(userId, ResetDraft(before[KEY_PENDING := Pending(PendingOf(before) + [added])]),
             VACANCY_CREATE_QUESTIONNAIRE_CHOICE)
    }

    /** The edited-vacancy half of handleQuestionRequiredInput. */
    method SaveQuestion(userId: int, vacancyId: int, question: string, qtype: QuestionType, required: bool,
                        options: Option<seq<string>>, now: Minutes)
      requires questionDb.Valid()
      modifies stateManager, questionDb
      ensures questionDb.Valid()
      ensures QuestionSaved(userId, vacancyId, question, qtype, required, options)
    {
      var q := questionDb.CreateCustomQuestion(vacancyId, question, qtype, required, options, now);
      ResetQuestionDraft(userId);
    }

    /** The new-vacancy half of handleQuestionRequiredInput. */
    method AddPending(userId: int, added: PendingQuestion)
      modifies stateManager
      ensures QuestionPending(userId, added)
    {
      var pending := PendingValue(stateManager.GetContextValue(userId, KEY_PENDING)).GetOr([]);
      assert pending == PendingOf(stateManager.GetContext(userId));
      stateManager.SetContextValue(userId, KEY_PENDING, Pending(pending + [added]));
      ResetQuestionDraft(userId);
    }

    /** handleQuestionRequiredInput. */
    method RequiredInput(userId: int, text: string, now: Minutes) returns (reply: BusinessReply)
      requires questionDb.Valid()
      modifies stateManager, questionDb
      ensures RequiredStep(userId, text, reply, now)
    {
      var required := ParseRequired(Lower(Trim(text)));
      if required.None? {
        return UnknownRequiredAnswer;
      }
      var context := stateManager.GetContext(userId);
      assert forall key :: ValueAt(context, key) == stateManager.GetContextValue(userId, key);
      var question := TextValue(ValueAt(context, KEY_QUESTION_TEXT)).GetOr("");
      var typeName := TextValue(ValueAt(context, KEY_QUESTION_TYPE)).GetOr("TEXT");
      var qtype := TypeFromName(typeName);
      if qtype.None? {
        return UnknownQuestionType(typeName);
      }
      var options := TextsValue(ValueAt(context, KEY_QUESTION_OPTIONS));
      var edited := EditedVacancy(context);
      if edited.Some? {
        SaveQuestion(userId, edited.value, question, qtype.value, required.value, options, now);
      } else {
        AddPending(userId, PendingQuestion(question, typeName, required.value, None, options));
      }
      reply := QuestionAdded;
    }

    /** Resets the question draft, offers more questions and returns to the questionnaire choice. */
    method ResetQuestionDraft(userId: int)
      modifies stateManager
      ensures Became(userId, ResetDraft(old(stateManager.GetContext(userId))), VACANCY_CREATE_QUESTIONNAIRE_CHOICE)
    {
      ghost var contexts := stateManager.contexts;
      ghost var c1 := stateManager.GetContext(userId)[KEY_QUESTION_TEXT := Text("")];
      stateManager.SetContextValue(userId, KEY_QUESTION_TEXT, Text(""));
      ghost var c2 := c1[KEY_QUESTION_TYPE := Text("")];
      stateManager.SetContextValue(userId, KEY_QUESTION_TYPE, Text(""));
      Overwrite(contexts, userId, c1, c2);
      ghost var c3 := c2[KEY_QUESTION_OPTIONS := Texts([])];
      stateManager.SetContextValue(userId, KEY_QUESTION_OPTIONS, Texts([]));
      Overwrite(contexts, userId, c2, c3);
      Advance(userId, KEY_ADDING_MORE, Flag(true), VACANCY_CREATE_QUESTIONNAIRE_CHOICE);
      Overwrite(contexts, userId, c3, c3[KEY_ADDING_MORE := Flag(true)]);
    }

    // -------------------------------------------------------------------
    // Deleting a question
    // -------------------------------------------------------------------

    /**
     * The delete step: the number n counts the vacancy's questions by
     * order index from 1; the n-th is deleted when 1 <= n <= their count.
     */
    twostate predicate DeleteStep(userId: int, text: string, reply: BusinessReply)
      reads this, stateManager, questionDb
    {
      var vacancyId := NumValue(old(stateManager.GetContextValue(userId, KEY_CURRENT_VACANCY)));
      var number := ToIntOrNull(Trim(text));
      old(questionDb.Valid()) && questionDb.Valid()
      && (vacancyId.None? ==> reply == MissingVacancy && Cleared(userId) && unchanged(questionDb))
      && (vacancyId.Some? && (number.None? || number.value < 1) ==>
            reply == BadQuestionNumber && unchanged(stateManager, questionDb))
      && (vacancyId.Some? && number.Some? && number.value >= 1 ==>
            NumberDeleted(userId, vacancyId.value, number.value, reply))
    }

    /** Deleting the n-th question of the vacancy, n >= 1, in order index order. */
    twostate predicate NumberDeleted(userId: int, vacancyId: int, number: int, reply: BusinessReply)
      reads this, stateManager, questionDb
      requires old(questionDb.Valid()) && number >= 1
    {
      var questions := old(questionDb.FindByVacancyId(vacancyId));
      questionDb.Valid()
      && (number > |questions| ==>
            reply == QuestionNumberTooLarge(number, |questions|) && unchanged(stateManager, questionDb))
      && (number <= |questions| ==>
            var q := questions[number - 1];
            reply == QuestionDeleted(q.text)
            && questionDb.questions == old(questionDb.questions) - {q.id}
            && MovedTo(userId, QUESTIONNAIRE_MANAGEMENT_MENU))
    }

    /** handleQuestionDeleteByNumber. */
    method QuestionDeleteByNumber(userId: int, text: string) returns (reply: BusinessReply)
      requires questionDb.Valid()
      modifies stateManager, questionDb
      ensures DeleteStep(userId, text, reply)
    {
      var vacancyId := NumValue(stateManager.GetContextValue(userId, KEY_CURRENT_VACANCY));
      if vacancyId.None? {
        stateManager.ClearState(userId);
        return MissingVacancy;
      }
      var number := ToIntOrNull(Trim(text));
      if number.None? || number.value < 1 {
        return BadQuestionNumber;
      }
      reply := DeleteNumbered(userId, vacancyId.value, number.value);
    }

    /** handleQuestionDeleteByNumber once the number is known to be at least 1. */
    method DeleteNumbered(userId: int, vacancyId: int, number: int) returns (reply: BusinessReply)
      requires questionDb.Valid() && number >= 1
      modifies stateManager, questionDb
      ensures NumberDeleted(userId, vacancyId, number, reply)
    {
      var questions := questionDb.FindByVacancyId(vacancyId);
      if number > |questions| {
        return QuestionNumberTooLarge(number, |questions|);
      }
      var q := questions[number - 1];
      questionDb.DeleteById(q.id);
      stateManager.SetState(userId, QUESTIONNAIRE_MANAGEMENT_MENU);
      reply := QuestionDeleted(q.text);
    }

    // -------------------------------------------------------------------
    // Applications and vacancies
    // -------------------------------------------------------------------

    /** handleViewVacancyByCode. */
    method ViewVacancyByCode(userId: int, code: string) returns (reply: BusinessReply)
      requires vacancyDb.Valid() && userDb.Valid()
      modifies stateManager
      ensures VacancyShown(userId, code, vacancyDb.FindByCode(code), BusinessOf(userId), reply)
    {
      var found := vacancyDb.FindByCode(code);
      if found.None? {
        return VacancyNotFound(code);
      }
      var access := BusinessOf(userId);
      match access
      case NoUser =>
        reply := UserNotFound;
      case NoBusiness =>
        reply := NoBusinessAccess;
      case Member(businessId) =>
        if found.value.businessId != businessId {
          return VacancyForbidden;
        }
        Advance(userId, KEY_CURRENT_VACANCY, Num(found.value.id), VIEWING_VACANCY_DETAILS);
        reply := VacancyDetails(found.value);
    }

    /**
     * handleViewApplicationDetails: only a representative of the business
     * the application's vacancy belongs to sees it; a NEW application is
     * marked VIEWED as it is shown, even when its applicant is missing.
     */
    method ViewApplicationDetails(userId: int, applicationId: int, now: Minutes) returns (reply: BusinessReply)
      requires Valid()
      modifies stateManager, applicationDb
      ensures Valid()
      ensures applicationDb.answers == old(applicationDb.answers)
      ensures applicationDb.nextApplicationId == old(applicationDb.nextApplicationId)
      ensures var app := old(applicationDb.FindById(applicationId));
              var access := BusinessOf(userId);
              var vacancy := if app.Some? then vacancyDb.FindById(app.value.vacancyId) else None;
              var granted := app.Some? && access.Member? && vacancy.Some? && vacancy.value.businessId == access.businessId;
              (app.None? ==> reply == ApplicationNotFound(applicationId))
              && (app.Some? && access.NoUser? ==> reply == UserNotFound)
              && (app.Some? && access.NoBusiness? ==> reply == NoBusinessAccess)
              && (app.Some? && access.Member? && vacancy.None? ==> reply == ApplicationVacancyNotFound)
              && (app.Some? && access.Member? && vacancy.Some? && vacancy.value.businessId != access.businessId ==>
                    reply == ApplicationForbidden)
              && (!granted ==> unchanged(stateManager, applicationDb))
              && (granted ==>
                    var seen := if app.value.status == NEW then VIEWED else app.value.status;
                    applicationDb.applications ==
                      (if app.value.status == NEW
                       then old(applicationDb.applications)[applicationId := app.value.(status := VIEWED, updatedAt := now)]
                       else old(applicationDb.applications))
                    && applicationDb.applications[applicationId].status == seen && seen != NEW
                    && (userDb.FindById(app.value.userId).None? ==> reply == ApplicantNotFound && unchanged(stateManager))
                    && (userDb.FindById(app.value.userId).Some? ==>
                          reply == ApplicationDetails(applicationId, seen)
                          && Kept(userId, KEY_APPLICATION, Num(applicationId), VIEWING_APPLICATION_DETAILS)))
    {
      var app := applicationDb.FindById(applicationId);
      if app.None? {
        return ApplicationNotFound(applicationId);
      }
      var access := BusinessOf(userId);
      if access.NoUser? {
        return UserNotFound;
      }
      if access.NoBusiness? {
        return NoBusinessAccess;
      }
      var vacancy := vacancyDb.FindById(app.value.vacancyId);
      if vacancy.None? {
        return ApplicationVacancyNotFound;
      }
      if vacancy.value.businessId != access.businessId {
        return ApplicationForbidden;
      }
      var seen := app.value.status;
      if seen == NEW {
        var updated := applicationDb.UpdateStatus(applicationId, VIEWED, now);
        seen := VIEWED;
      }
      if userDb.FindById(app.value.userId).None? {
        return ApplicantNotFound;
      }
      Advance(userId, KEY_APPLICATION, Num(applicationId), VIEWING_APPLICATION_DETAILS);
      reply := ApplicationDetails(applicationId, seen);
    }

    /**
     * The application status step: the status named by the answer is
     * saved and the user returns to the application.
     */
    twostate predicate ApplicationStatusStep(userId: int, text: string, reply: BusinessReply, now: Minutes)
      reads this, stateManager, applicationDb
    {
      var applicationId := NumValue(old(stateManager.GetContextValue(userId, KEY_APPLICATION)));
      var status := ParseApplicationStatus(Lower(Trim(text)));
      old(applicationDb.Valid()) && applicationDb.Valid()
      && applicationDb.answers == old(applicationDb.answers)
      && (applicationId.None? ==> reply == MissingApplication && Cleared(userId) && unchanged(applicationDb))
      && (applicationId.Some? && status.None? ==> reply == BadApplicationStatus && unchanged(stateManager, applicationDb))
      && (applicationId.Some? && status.Some? ==>
            ApplicationStatusSet(userId, applicationId.value, status.value, reply, now))
    }

    /** Saving a parsed status: a missing application ends the dialog, a known one shows its details again. */
    twostate predicate ApplicationStatusSet(userId: int, applicationId: int, status: ApplicationStatus,
                                            reply: BusinessReply, now: Minutes)
      reads this, stateManager, applicationDb
    {
      old(applicationDb.Valid()) && applicationDb.Valid()
      && applicationDb.answers == old(applicationDb.answers)
      && (applicationId !in old(applicationDb.applications) ==>
            reply == StatusUpdateFailed && Cleared(userId) && applicationDb.applications == old(applicationDb.applications))
      && (applicationId in old(applicationDb.applications) ==>
            reply == ApplicationStatusChanged(status)
            && applicationDb.applications == old(applicationDb.applications)[applicationId :=
                 old(applicationDb.applications)[applicationId].(status := status, updatedAt := now)]
            && MovedTo(userId, VIEWING_APPLICATION_DETAILS))
    }

    /** handleStatusChange. */
    method StatusChangeInput(userId: int, text: string, now: Minutes) returns (reply: BusinessReply)
      requires applicationDb.Valid()
      modifies stateManager, applicationDb
      ensures ApplicationStatusStep(userId, text, reply, now)
    {
      var applicationId := NumValue(stateManager.GetContextValue(userId, KEY_APPLICATION));
      if applicationId.None? {
        stateManager.ClearState(userId);
        return MissingApplication;
      }
      var status := ParseApplicationStatus(Lower(Trim(text)));
      if status.None? {
        return BadApplicationStatus;
      }
      reply := SetApplicationStatus(userId, applicationId.value, status.value, now);
    }

    /** The update of handleStatusChange and the answer to it. */
    method SetApplicationStatus(userId: int, applicationId: int, status: ApplicationStatus, now: Minutes)
      returns (reply: BusinessReply)
      requires applicationDb.Valid()
      modifies stateManager, applicationDb
      ensures ApplicationStatusSet(userId, applicationId, status, reply, now)
    {
      var updated := applicationDb.UpdateStatus(applicationId, status, now);
      if updated.None? {
        stateManager.ClearState(userId);
        return StatusUpdateFailed;
      }
      stateManager.SetState(userId, VIEWING_APPLICATION_DETAILS);
      reply := ApplicationStatusChanged(status);
    }

    /**
     * The vacancy status step: the status named by the answer is saved and
     * the updated vacancy shown again, found by its code.
     */
    twostate predicate VacancyStatusStep(userId: int, text: string, reply: BusinessReply, now: Minutes)
      reads this, stateManager, vacancyDb, userDb
    {
      var vacancyId := NumValue(old(stateManager.GetContextValue(userId, KEY_CURRENT_VACANCY)));
      var status := ParseVacancyStatus(Lower(Trim(text)));
      old(vacancyDb.Valid()) && vacancyDb.Valid() && userDb.Valid()
      && (vacancyId.None? ==> reply == MissingVacancy && Cleared(userId) && unchanged(vacancyDb))
      && (vacancyId.Some? && status.None? ==> reply == BadVacancyStatus && unchanged(stateManager, vacancyDb))
      && (vacancyId.Some? && status.Some? ==> VacancyStatusSet(userId, vacancyId.value, status.value, reply, now))
    }

    /** Saving a parsed status: a missing vacancy ends the dialog, a known one is shown again. */
    twostate predicate VacancyStatusSet(userId: int, vacancyId: int, status: VacancyStatus, reply: BusinessReply,
                                        now: Minutes)
      reads this, stateManager, vacancyDb, userDb
    {
      old(vacancyDb.Valid()) && vacancyDb.Valid() && userDb.Valid()
      && (vacancyId !in old(vacancyDb.vacancies) ==>
            reply == StatusUpdateFailed && Cleared(userId) && vacancyDb.vacancies == old(vacancyDb.vacancies))
      && (vacancyId in old(vacancyDb.vacancies) ==>
            var updated := StatusChanged(old(vacancyDb.vacancies)[vacancyId], status, now);
            vacancyDb.vacancies == old(vacancyDb.vacancies)[vacancyId := updated]
            && vacancyDb.FindByCode(updated.code) == Some(updated)
            && VacancyShown(userId, updated.code, Some(updated), BusinessOf(userId), reply))
    }

    /** handleVacancyChangeStatus. */
    method VacancyChangeStatusInput(userId: int, text: string, now: Minutes) returns (reply: BusinessReply)
      requires vacancyDb.Valid() && userDb.Valid()
      modifies stateManager, vacancyDb
      ensures VacancyStatusStep(userId, text, reply, now)
    {
      var vacancyId := NumValue(stateManager.GetContextValue(userId, KEY_CURRENT_VACANCY));
      if vacancyId.None? {
        stateManager.ClearState(userId);
        return MissingVacancy;
      }
      var status := ParseVacancyStatus(Lower(Trim(text)));
      if status.None? {
        return BadVacancyStatus;
      }
      reply := SetVacancyStatus(userId, vacancyId.value, status.value, now);
    }

    /** The update of handleVacancyChangeStatus and the answer to it. */
    method SetVacancyStatus(userId: int, vacancyId: int, status: VacancyStatus, now: Minutes)
      returns (reply: BusinessReply)
      requires vacancyDb.Valid() && userDb.Valid()
      modifies stateManager, vacancyDb
      ensures VacancyStatusSet(userId, vacancyId, status, reply, now)
    {
      var updated := vacancyDb.ChangeStatus(vacancyId, status, now);
      if updated.None? {
        stateManager.ClearState(userId);
        return StatusUpdateFailed;
      }
      CodeFindsVacancy(vacancyDb, vacancyId);
      reply := ViewVacancyByCode(userId, updated.value.code);
    }

    // -------------------------------------------------------------------
    // Campaign schedules
    // -------------------------------------------------------------------

    /**
     * The schedule type step: the first three entries keep the type and
     * ask for its value; the fourth switches the schedule off; the fifth
     * sends every quarter of an hour, starting 15 minutes from now.
     */
    twostate predicate ScheduleTypeStep(userId: int, text: string, reply: BusinessReply, now: Minutes)
      reads this, stateManager, broadcastDb
    {
      var campaignId := NumValue(old(stateManager.GetContextValue(userId, KEY_CAMPAIGN)));
      var choice := ParseScheduleChoice(text);
      old(broadcastDb.Valid()) && broadcastDb.Valid()
      && broadcastDb.channels == old(broadcastDb.channels)
      && (campaignId.None? ==> reply == NoCampaignSelected && unchanged(stateManager, broadcastDb))
      && (campaignId.Some? && campaignId.value !in old(broadcastDb.campaigns) ==>
            reply == CampaignNotFound && unchanged(stateManager, broadcastDb))
      && (campaignId.Some? && campaignId.value in old(broadcastDb.campaigns) ==>
            var id := campaignId.value;
            var c := old(broadcastDb.campaigns)[id];
            (choice.None? ==> reply == BadScheduleChoice && unchanged(stateManager, broadcastDb))
            && (choice == Some(EveryHour) || choice == Some(EveryDay) || choice == Some(EveryNHours) ==>
                  reply == AskScheduleValue(ScheduleTypeOf(choice.value)) && unchanged(broadcastDb)
                  && Kept(userId, KEY_SCHEDULE_TYPE, Text(ScheduleTypeOf(choice.value)), BROADCAST_CAMPAIGN_SCHEDULE_TIME))
            && (choice == Some(ScheduleOff) ==>
                  reply == ScheduleSwitchedOff
                  && broadcastDb.campaigns == old(broadcastDb.campaigns)[id :=
                       c.(scheduleEnabled := false, nextSendAt := None, updatedAt := now)]
                  && !Due(broadcastDb.campaigns[id], now)
                  && MovedTo(userId, BROADCAST_CAMPAIGN_VIEW_DETAILS))
            && (choice == Some(EveryQuarterHour) ==>
                  reply == QuarterHourSchedule(now + EVERY_15_MINUTES_STEP)
                  && broadcastDb.campaigns == old(broadcastDb.campaigns)[id :=
                       c.(scheduleType := QUARTER_HOUR_TYPE, scheduleIntervalHours := Some(EVERY_15_MINUTES_STEP),
                          scheduleEnabled := true, nextSendAt := Some(now + EVERY_15_MINUTES_STEP), updatedAt := now)]
                  && !Due(broadcastDb.campaigns[id], now)
                  && MovedTo(userId, BROADCAST_CAMPAIGN_VIEW_DETAILS)))
    }

    /**
     * handleCampaignScheduleTypeInput. The cancel button never reaches it:
     * handleConversationState answers it first.
     */
    method ScheduleTypeInput(userId: int, text: string, now: Minutes) returns (reply: BusinessReply)
      requires broadcastDb.Valid() && text != CANCEL
      modifies stateManager, broadcastDb
      ensures ScheduleTypeStep(userId, text, reply, now)
    {
      var campaignId := NumValue(stateManager.GetContextValue(userId, KEY_CAMPAIGN));
      if campaignId.None? {
        return NoCampaignSelected;
      }
      var campaign := broadcastDb.FindCampaignById(campaignId.value);
      if campaign.None? {
        return CampaignNotFound;
      }
      var c := campaign.value;
      var choice := ParseScheduleChoice(text);
      match choice
      case None =>
        reply := BadScheduleChoice;
      case Some(EveryHour) =>
        Advance(userId, KEY_SCHEDULE_TYPE, Text("HOURLY"), BROADCAST_CAMPAIGN_SCHEDULE_TIME);
        reply := AskScheduleValue("HOURLY");
      case Some(EveryDay) =>
        Advance(userId, KEY_SCHEDULE_TYPE, Text("DAILY"), BROADCAST_CAMPAIGN_SCHEDULE_TIME);
        reply := AskScheduleValue("DAILY");
      case Some(EveryNHours) =>
        Advance(userId, KEY_SCHEDULE_TYPE, Text("CUSTOM"), BROADCAST_CAMPAIGN_SCHEDULE_TIME);
        reply := AskScheduleValue("CUSTOM");
      case Some(ScheduleOff) =>
        var saved := broadcastDb.UpdateCampaign(c.(scheduleEnabled := false, nextSendAt := None), now);
        stateManager.SetState(userId, BROADCAST_CAMPAIGN_VIEW_DETAILS);
        reply := ScheduleSwitchedOff;
      case Some(EveryQuarterHour) =>
        var next := now + EVERY_15_MINUTES_STEP;
        var saved := broadcastDb.UpdateCampaign(
          c.(scheduleType := QUARTER_HOUR_TYPE, scheduleIntervalHours := Some(EVERY_15_MINUTES_STEP),
             scheduleEnabled := true, nextSendAt := Some(next)), now);
        stateManager.SetState(userId, BROADCAST_CAMPAIGN_VIEW_DETAILS);
        reply := QuarterHourSchedule(next);
    }

    /**
     * The schedule value step: the untrimmed answer must be an integer in
     * the range of the stored type; the campaign is then scheduled from
     * now, no longer due, and the stored type is forgotten.
     */
    twostate predicate ScheduleTimeStep(userId: int, text: string, reply: BusinessReply, now: Minutes)
      reads this, stateManager, broadcastDb
    {
      var campaignId := NumValue(old(stateManager.GetContextValue(userId, KEY_CAMPAIGN)));
      var scheduleType := TextValue(old(stateManager.GetContextValue(userId, KEY_SCHEDULE_TYPE)));
      var value := ToIntOrNull(text);
      old(broadcastDb.Valid()) && broadcastDb.Valid()
      && broadcastDb.channels == old(broadcastDb.channels)
      && (campaignId.None? ==> reply == NoCampaignSelected && unchanged(stateManager, broadcastDb))
      && (campaignId.Some? && scheduleType.None? ==> reply == NoScheduleType && unchanged(stateManager, broadcastDb))
      && (campaignId.Some? && scheduleType.Some? && value.None? ==>
            reply == ScheduleValueNotNumber && unchanged(stateManager, broadcastDb))
      && (campaignId.Some? && scheduleType.Some? && value.Some? && campaignId.value !in old(broadcastDb.campaigns) ==>
            reply == CampaignNotFound && unchanged(stateManager, broadcastDb))
      && (campaignId.Some? && scheduleType.Some? && value.Some? && campaignId.value in old(broadcastDb.campaigns) ==>
            var id, t, v := campaignId.value, scheduleType.value, value.value;
            var setting := ScheduleFor(t, v, now);
            (setting.OutOfRangeValue? ==> reply == ScheduleValueOutOfRange(t) && unchanged(stateManager, broadcastDb))
            && (setting.UnknownScheduleType? ==> reply == UnknownScheduleTypeReply && unchanged(stateManager, broadcastDb))
            && (setting.Scheduled? ==>
                  reply == ScheduleSet(t, v, setting.next)
                  && broadcastDb.campaigns == old(broadcastDb.campaigns)[id :=
                       old(broadcastDb.campaigns)[id].(scheduleType := t, scheduleIntervalHours := Some(v),
                         scheduleEnabled := true, nextSendAt := Some(setting.next), updatedAt := now)]
                  && !Due(broadcastDb.campaigns[id], now)
                  && Became(userId, old(stateManager.GetContext(userId)) - {KEY_SCHEDULE_TYPE},
                            BROADCAST_CAMPAIGN_VIEW_DETAILS)))
    }

    /**
     * handleCampaignScheduleTimeInput. The cancel button never reaches it:
     * handleConversationState answers it first.
     */
    method ScheduleTimeInput(userId: int, text: string, now: Minutes) returns (reply: BusinessReply)
      requires broadcastDb.Valid() && text != CANCEL
      modifies stateManager, broadcastDb
      ensures ScheduleTimeStep(userId, text, reply, now)
    {
      var campaignId := NumValue(stateManager.GetContextValue(userId, KEY_CAMPAIGN));
      if campaignId.None? {
        return NoCampaignSelected;
      }
      var scheduleType := TextValue(stateManager.GetContextValue(userId, KEY_SCHEDULE_TYPE));
      if scheduleType.None? {
        return NoScheduleType;
      }
      var value := ToIntOrNull(text);
      if value.None? {
        return ScheduleValueNotNumber;
      }
      var campaign := broadcastDb.FindCampaignById(campaignId.value);
      if campaign.None? {
        return CampaignNotFound;
      }
      var t, v := scheduleType.value, value.value;
      var setting := ScheduleFor(t, v, now);
      match setting
      case OutOfRangeValue =>
        reply := ScheduleValueOutOfRange(t);
      case UnknownScheduleType =>
        reply := UnknownScheduleTypeReply;
      case Scheduled(next) =>
        var saved := broadcastDb.UpdateCampaign(
          campaign.value.(scheduleType := t, scheduleIntervalHours := Some(v), scheduleEnabled := true,
                          nextSendAt := Some(next)), now);
        stateManager.SetState(userId, BROADCAST_CAMPAIGN_VIEW_DETAILS);
        stateManager.ClearContextValue(userId, KEY_SCHEDULE_TYPE);
        reply := ScheduleSet(t, v, next);
    }

    // -------------------------------------------------------------------
    // Dispatch
    // -------------------------------------------------------------------

    /** A message in one of the states that type a field of the new vacancy. */
    twostate predicate FieldOutcome(userId: int, text: string, state: ConversationState, reply: BusinessReply)
      reads stateManager
    {
      (state == VACANCY_CREATE_TITLE ==> TitleStep(userId, text, reply))
      && (state == VACANCY_CREATE_DESCRIPTION ==> DescriptionStep(userId, text, reply))
      && (state == VACANCY_CREATE_LOCATION ==> LocationStep(userId, text, reply))
      && (state == VACANCY_CREATE_SALARY ==> SalaryStep(userId, text, reply))
    }

    /** The `when` branches that type a field of the new vacancy. */
    method FieldInput(userId: int, text: string, state: ConversationState) returns (reply: BusinessReply)
      modifies stateManager
      ensures FieldOutcome(userId, text, state, reply)
    {
      if state == VACANCY_CREATE_TITLE {
        reply := TitleInput(userId, text);
      } else if state == VACANCY_CREATE_DESCRIPTION {
        reply := DescriptionInput(userId, text);
      } else if state == VACANCY_CREATE_LOCATION {
        reply := LocationInput(userId, text);
      } else {
        reply := SalaryInput(userId, text);
      }
    }

    /** A message in one of the vacancy creation states. */
    twostate predicate CreationOutcome(userId: int, text: string, state: ConversationState, reply: BusinessReply,
                                       now: Minutes)
      reads this, stateManager, vacancyDb, questionDb, applicationDb, userDb, broadcastDb
    {
      unchanged(vacancyDb, applicationDb, broadcastDb)
      && (state != VACANCY_CREATE_QUESTIONNAIRE_CHOICE ==>
            FieldOutcome(userId, text, state, reply) && unchanged(questionDb))
      && (state == VACANCY_CREATE_QUESTIONNAIRE_CHOICE ==> ChoiceStep(userId, text, reply, now))
    }

    /** The `when` branches of vacancy creation. */
    method CreationInput(userId: int, text: string, state: ConversationState, now: Minutes)
      returns (reply: BusinessReply)
      requires Valid() && CreationState(state)
      modifies stateManager, questionDb
      ensures Valid()
      ensures CreationOutcome(userId, text, state, reply, now)
    {
      if state == VACANCY_CREATE_QUESTIONNAIRE_CHOICE {
        reply := QuestionnaireChoiceInput(userId, text, now);
      } else {
        reply := FieldInput(userId, text, state);
      }
    }

    /** A message in one of the states that type a field of the new question. */
    twostate predicate DraftQuestionOutcome(userId: int, text: string, state: ConversationState, reply: BusinessReply)
      reads stateManager
    {
      (state == QUESTION_ADD_TEXT ==> QuestionTextStep(userId, text, reply))
      && (state == QUESTION_ADD_TYPE ==> QuestionTypeStep(userId, text, reply))
      && (state == QUESTION_ADD_OPTIONS ==> OptionsStep(userId, text, reply))
    }

    /** The `when` branches that type a field of the new question. */
    method DraftQuestionInput(userId: int, text: string, state: ConversationState) returns (reply: BusinessReply)
      modifies stateManager
      ensures DraftQuestionOutcome(userId, text, state, reply)
    {
      if state == QUESTION_ADD_TEXT {
        reply := QuestionTextInput(userId, text);
      } else if state == QUESTION_ADD_TYPE {
        reply := QuestionTypeInput(userId, text);
      } else {
        reply := OptionsInput(userId, text);
      }
    }

    /** A message in one of the states of adding or deleting a question. */
    twostate predicate QuestionOutcome(userId: int, text: string, state: ConversationState, reply: BusinessReply,
                                       now: Minutes)
      reads this, stateManager, vacancyDb, questionDb, applicationDb, broadcastDb
    {
      unchanged(vacancyDb, applicationDb, broadcastDb)
      && (state.QUESTION_ADD_TEXT? || state.QUESTION_ADD_TYPE? || state.QUESTION_ADD_OPTIONS? ==>
            DraftQuestionOutcome(userId, text, state, reply) && unchanged(questionDb))
      && (state == QUESTION_ADD_REQUIRED ==> RequiredStep(userId, text, reply, now))
      && (state == QUESTIONNAIRE_DELETE_ENTER_NUMBER ==> DeleteStep(userId, text, reply))
    }

    /** The `when` branches of the question dialogs. */
    method QuestionInput(userId: int, text: string, state: ConversationState, now: Minutes)
      returns (reply: BusinessReply)
      requires Valid() && QuestionState(state)
      modifies stateManager, questionDb
      ensures Valid()
      ensures QuestionOutcome(userId, text, state, reply, now)
    {
      if state == QUESTION_ADD_REQUIRED {
        reply := RequiredInput(userId, text, now);
      } else if state == QUESTIONNAIRE_DELETE_ENTER_NUMBER {
        reply := QuestionDeleteByNumber(userId, text);
      } else {
        reply := DraftQuestionInput(userId, text, state);
      }
    }

    /** A message in the state of an application's or a vacancy's status change. */
    twostate predicate StatusOutcome(userId: int, text: string, state: ConversationState, reply: BusinessReply,
                                     now: Minutes)
      reads this, stateManager, vacancyDb, applicationDb, userDb, broadcastDb
    {
      unchanged(broadcastDb)
      && (state == CHANGING_APPLICATION_STATUS ==> ApplicationStatusStep(userId, text, reply, now) && unchanged(vacancyDb))
      && (state != CHANGING_APPLICATION_STATUS ==> VacancyStatusStep(userId, text, reply, now) && unchanged(applicationDb))
    }

    /** The `when` branches of the status changes. */
    method StatusInput(userId: int, text: string, state: ConversationState, now: Minutes)
      returns (reply: BusinessReply)
      requires Valid()
      modifies stateManager, vacancyDb, applicationDb
      ensures StatusOutcome(userId, text, state, reply, now)
    {
      if state == CHANGING_APPLICATION_STATUS {
        reply := StatusChangeInput(userId, text, now);
      } else {
        reply := VacancyChangeStatusInput(userId, text, now);
      }
    }

    /** A message in one of the states of a campaign's schedule. */
    twostate predicate ScheduleOutcome(userId: int, text: string, state: ConversationState, reply: BusinessReply,
                                       now: Minutes)
      reads this, stateManager, vacancyDb, applicationDb, broadcastDb
    {
      unchanged(vacancyDb, applicationDb)
      && (state == BROADCAST_CAMPAIGN_SCHEDULE_TYPE ==> ScheduleTypeStep(userId, text, reply, now))
      && (state != BROADCAST_CAMPAIGN_SCHEDULE_TYPE ==> ScheduleTimeStep(userId, text, reply, now))
    }

    /** The `when` branches of a campaign's schedule. */
    method ScheduleInput(userId: int, text: string, state: ConversationState, now: Minutes)
      returns (reply: BusinessReply)
      requires Valid() && text != CANCEL
      modifies stateManager, broadcastDb
      ensures ScheduleOutcome(userId, text, state, reply, now)
    {
      if state == BROADCAST_CAMPAIGN_SCHEDULE_TYPE {
        reply := ScheduleTypeInput(userId, text, now);
      } else {
        reply := ScheduleTimeInput(userId, text, now);
      }
    }

    /** A message in a status change or schedule state. */
    twostate predicate SettingOutcome(userId: int, text: string, state: ConversationState, reply: BusinessReply,
                                      now: Minutes)
      reads this, stateManager, vacancyDb, questionDb, applicationDb, userDb, broadcastDb
    {
      unchanged(questionDb)
      && (state.CHANGING_APPLICATION_STATUS? || state.VACANCY_CHANGE_STATUS? ==>
            StatusOutcome(userId, text, state, reply, now))
      && (state.BROADCAST_CAMPAIGN_SCHEDULE_TYPE? || state.BROADCAST_CAMPAIGN_SCHEDULE_TIME? ==>
            ScheduleOutcome(userId, text, state, reply, now))
    }

    /** The `when` branches of status changes and schedules. */
    method SettingInput(userId: int, text: string, state: ConversationState, now: Minutes)
      returns (reply: BusinessReply)
      requires Valid() && SettingState(state) && text != CANCEL
      modifies stateManager, vacancyDb, applicationDb, broadcastDb
      ensures Valid()
      ensures SettingOutcome(userId, text, state, reply, now)
    {
      if state.CHANGING_APPLICATION_STATUS? || state.VACANCY_CHANGE_STATUS? {
        reply := StatusInput(userId, text, state, now);
      } else {
        reply := ScheduleInput(userId, text, state, now);
      }
    }

    /** One message inside a dialog, dispatched on the state the user was in. */
    twostate predicate DialogOutcome(message: IncomingMessage, reply: BusinessReply, now: Minutes)
      reads this, stateManager, vacancyDb, questionDb, applicationDb, userDb, broadcastDb
    {
      var userId, text := message.userId, message.text;
      (text == CANCEL ==>
         reply == Cancelled && Cleared(userId) && unchanged(vacancyDb, questionDb, applicationDb, broadcastDb))
      && (text != CANCEL ==> StepOutcome(userId, text, old(stateManager.GetState(userId)), reply, now))
    }

    /** A message other than the cancel button, in the given state. */
    twostate predicate StepOutcome(userId: int, text: string, state: ConversationState, reply: BusinessReply,
                                   now: Minutes)
      reads this, stateManager, vacancyDb, questionDb, applicationDb, userDb, broadcastDb
    {
      (!BusinessState(state) ==>
         reply == StateError && Cleared(userId) && unchanged(vacancyDb, questionDb, applicationDb, broadcastDb))
      && (ModelledState(state) ==> ModelledOutcome(userId, text, state, reply, now))
      && (BusinessState(state) && !ModelledState(state) ==>
            reply == NotModelled(state) && unchanged(stateManager, vacancyDb, questionDb, applicationDb, broadcastDb))
    }

    /** A message in a state whose step is part of this model. */
    twostate predicate ModelledOutcome(userId: int, text: string, state: ConversationState, reply: BusinessReply,
                                       now: Minutes)
      reads this, stateManager, vacancyDb, questionDb, applicationDb, userDb, broadcastDb
    {
      ((CreationState(state) || QuestionState(state)) ==> DraftingOutcome(userId, text, state, reply, now))
      && (SettingState(state) ==> SettingOutcome(userId, text, state, reply, now))
    }

    /** A message in a vacancy creation or question state. */
    twostate predicate DraftingOutcome(userId: int, text: string, state: ConversationState, reply: BusinessReply,
                                       now: Minutes)
      reads this, stateManager, vacancyDb, questionDb, applicationDb, userDb, broadcastDb
    {
      (CreationState(state) ==> CreationOutcome(userId, text, state, reply, now))
      && (QuestionState(state) ==> QuestionOutcome(userId, text, state, reply, now))
    }

    /** The `when` branches of vacancy creation and of the question dialogs. */
    method DraftingInput(userId: int, text: string, state: ConversationState, now: Minutes)
      returns (reply: BusinessReply)
      requires Valid() && (CreationState(state) || QuestionState(state))
      modifies stateManager, questionDb
      ensures Valid()
      ensures DraftingOutcome(userId, text, state, reply, now)
    {
      if CreationState(state) {
        reply := CreationInput(userId, text, state, now);
      } else {
        reply := QuestionInput(userId, text, state, now);
      }
    }

    /** The `when` branches this model covers. */
    method ModelledInput(userId: int, text: string, state: ConversationState, now: Minutes)
      returns (reply: BusinessReply)
      requires Valid() && ModelledState(state) && text != CANCEL
      modifies stateManager, vacancyDb, questionDb, applicationDb, broadcastDb
      ensures Valid()
      ensures ModelledOutcome(userId, text, state, reply, now)
    {
      if CreationState(state) || QuestionState(state) {
        assert !SettingState(state);
        reply := DraftingInput(userId, text, state, now);
      } else {
        reply := SettingInput(userId, text, state, now);
      }
    }

    /** handleConversationState: the cancel button first, then the `when` over the state. */
    method HandleConversationState(message: IncomingMessage, now: Minutes) returns (reply: BusinessReply)
      requires Valid()
      modifies stateManager, vacancyDb, questionDb, applicationDb, broadcastDb
      ensures Valid()
      ensures DialogOutcome(message, reply, now)
    {
      var userId, text := message.userId, message.text;
      if text == CANCEL {
        stateManager.ClearState(userId);
        return Cancelled;
      }
      reply := StepInput(userId, text, stateManager.GetState(userId), now);
    }

    /** The `when` over the state. */
    method StepInput(userId: int, text: string, state: ConversationState, now: Minutes) returns (reply: BusinessReply)
      requires Valid() && text != CANCEL
      modifies stateManager, vacancyDb, questionDb, applicationDb, broadcastDb
      ensures Valid()
      ensures StepOutcome(userId, text, state, reply, now)
    {
      if ModelledState(state) {
        ModelledStatesAreBusinessStates(state);
        reply := ModelledInput(userId, text, state, now);
      } else if BusinessState(state) {
        reply := NotModelled(state);
      } else {
        stateManager.ClearState(userId);
        reply := StateError;
      }
    }
  }
}
