/**
 * The applicant bot: a vacancy code opens an application, then the
 * questionnaire is answered one question at a time. Only the decisions and
 * the writes to the tables and the conversation store are modelled; the
 * replies are named by what they report.
 */
module ApplicantDialog {
  import opened Common
  import opened Domain
  import opened ConversationStore
  import opened VacancyDb
  import opened QuestionDb
  import opened ApplicationDb
  import opened UserDb
  import opened Messages

  const KEY_APPLICATION_ID: string := "applicationId"
  const KEY_VACANCY_TITLE: string := "vacancyTitle"
  const KEY_VACANCY_CODE: string := "vacancyCode"
  const KEY_QUESTIONS: string := "questions"
  const KEY_CURRENT_INDEX: string := "currentQuestionIndex"
  /** What leaves handleQuestionnaireAnswer when a negative index is read from the context. */
  const INDEX_OUT_OF_BOUNDS: string := "IndexOutOfBoundsException"
  /** What the replies show when the context holds no vacancy title or code. */
  const NO_TITLE: string := "вакансию"
  const NO_CODE: string := "???"

  const REQUIRED_ANSWER: string := "❌ Этот вопрос обязательный. Пожалуйста, введите ответ."
  const NUMBER_EXPECTED: string := "❌ Ожидается число. Введите корректное значение."
  const BAD_PHONE: string := "❌ Неверный формат телефона. Введите номер телефона."
  const YES_OR_NO: string := "❌ Ответьте: Да или Нет"
  const BAD_OPTION: string := "❌ Неверный вариант. Выберите номер или введите текст варианта."

  /** The message for a choice number outside 1..n. */
  function ChoiceOutOfRange(n: nat): string
  {
    "❌ Выберите номер от 1 до " + ShowNat(n)
  }

  datatype ApplicantReply =
    | Welcome
    | Help
    | MyApplications
    | BadCodeFormat
    | VacancyNotFound(code: string)
    | VacancyUnavailable(status: VacancyStatus)
    | AlreadyApplied(title: string)
    | AppliedWithoutQuestions(title: string, location: Option<string>, salary: Option<string>)
    | AskQuestion(index: nat, title: string)
    | Cancelled
    | StateError
    | InvalidAnswer(message: string)
    | Completed(title: string, code: string, answered: nat)
    | Thrown(reason: string)   // an exception leaves the handler; nothing after it is written

  /** The replies to an application to an open vacancy, each showing that vacancy. */
  function SubmitReplies(vacancy: Vacancy): set<ApplicantReply>
  {
    {AlreadyApplied(vacancy.title), AppliedWithoutQuestions(vacancy.title, vacancy.location, vacancy.salary), AskQuestion(0, vacancy.title)}
  }

  /** The vacancy a code opens, or the reply refusing it. */
  datatype CodeLookup = Refused(reply: ApplicantReply) | Open(vacancy: Vacancy)

  // ---------------------------------------------------------------------
  // The vacancy code
  // ---------------------------------------------------------------------

  /** The code typed by the applicant, trimmed and upper-cased. */
  function CleanCode(input: string): string
  {
    Upper(Trim(input))
  }

  /** The code check: three letters A-Z then three digits, after cleaning. */
  predicate AcceptsCode(input: string)
  {
    IsVacancyCode(CleanCode(input))
  }

  /** Cleaning leaves a well-formed code as it is. */
  lemma {:induction false} CleanVacancyCode(code: string)
    requires IsVacancyCode(code)
    ensures CleanCode(code) == code
  {
    assert !IsWhitespace(code[0]) && !IsWhitespace(code[5]);
    assert TrimStart(code) == code;
    assert TrimEnd(code) == code;
    assert forall i :: 0 <= i < |code| ==> UpperChar(code[i]) == code[i];
  }

  /** Every code the vacancy table generates passes the applicant's code check, unchanged by cleaning. */
  lemma {:induction false} GeneratedCodesAccepted(draw: (nat, nat) -> nat, k: nat)
    ensures CleanCode(Candidate(draw, k)) == Candidate(draw, k)
    ensures AcceptsCode(Candidate(draw, k))
  {
    CleanVacancyCode(Candidate(draw, k));
  }

  // ---------------------------------------------------------------------
  // Answer validation
  // ---------------------------------------------------------------------

  /** Java's `\s` in a pattern: space, tab, line feed, vertical tab, form feed, carriage return. */
  predicate IsPatternSpace(c: char)
  {
    c == ' ' || ('\t' <= c <= '\r')
  }

  predicate IsPhoneChar(c: char)
  {
    IsAsciiDigit(c) || c == '-' || c == '(' || c == ')' || IsPatternSpace(c)
  }

  /** A whole-string match of an optional plus followed by 7 to 20 digits, dashes, brackets or spaces. */
  predicate IsPhoneShape(s: string)
  {
    var body := if s != [] && s[0] == '+' then s[1..] else s;
    7 <= |body| <= 20 && forall i :: 0 <= i < |body| ==> IsPhoneChar(body[i])
  }

  predicate IsYesOrNo(answer: string)
  {
    var normalized := Lower(answer);
    Contains(normalized, "да") || Contains(normalized, "нет") || Contains(normalized, "yes") || Contains(normalized, "no")
  }

  /** Whether some option equals the answer, ignoring case. */
  predicate MatchesOption(options: seq<string>, answer: string)
  {
    exists i :: 0 <= i < |options| && EqualsIgnoreCase(options[i], answer)
  }

  lemma {:induction false} DashIsNotBlank()
    ensures !IsBlank("-")
  {
    assert !IsWhitespace("-"[0]);
  }

  /**
   * validateAnswer: None when the answer is accepted, else the complaint.
   * A skipped optional question and "-" in general are accepted; a blank
   * answer to a required question is refused; then each type has its own
   * test, from which "-" is exempt.
   */
  function ValidateAnswer(q: Question, answer: string): (error: Option<string>)
    ensures answer == "-" ==> error.None?
    ensures q.isRequired && IsBlank(answer) ==> error == Some(REQUIRED_ANSWER)
    ensures (q.qtype == TEXT || q.qtype == DATE) ==> (error.None? <==> !(q.isRequired && IsBlank(answer)))
    ensures q.qtype == NUMBER ==> (error.None? <==> answer == "-" || (!(q.isRequired && IsBlank(answer)) && ToIntOrNull(answer).Some?))
    ensures q.qtype == PHONE ==> (error.None? <==> answer == "-" || (!(q.isRequired && IsBlank(answer)) && IsPhoneShape(answer)))
    ensures q.qtype == YES_NO ==> (error.None? <==> answer == "-" || (!(q.isRequired && IsBlank(answer)) && IsYesOrNo(answer)))
    ensures q.qtype == CHOICE && ParseOptions(q.options).None? ==> (error.None? <==> !(q.isRequired && IsBlank(answer)))
    ensures q.qtype == CHOICE && ParseOptions(q.options).Some? ==>
              var options := ParseOptions(q.options).value;
              (error.None? <==>
                 answer == "-"
                 || (!(q.isRequired && IsBlank(answer))
                     && match ToIntOrNull(answer)
                        case Some(n) => 1 <= n <= |options|
                        case None => MatchesOption(options, answer)))
  {
    DashIsNotBlank();
    if !q.isRequired && answer == "-" then None
    else if q.isRequired && IsBlank(answer) then Some(REQUIRED_ANSWER)
    else
      match q.qtype
      case NUMBER => if ToIntOrNull(answer).None? && answer != "-" then Some(NUMBER_EXPECTED) else None
      case PHONE => if !IsPhoneShape(answer) && answer != "-" then Some(BAD_PHONE) else None
      case YES_NO => if !IsYesOrNo(answer) && answer != "-" then Some(YES_OR_NO) else None
      case CHOICE =>
        (match ParseOptions(q.options)
         case Some(options) =>
           var answerNum := ToIntOrNull(answer);
           if answerNum.Some? && (answerNum.value < 1 || answerNum.value > |options|) then
             Some(ChoiceOutOfRange(|options|))
           else if answerNum.None? && !MatchesOption(options, answer) && answer != "-" then Some(BAD_OPTION)
           else None
         case None => None)
      case _ => None
  }

  /** A choice question whose options parse accepts each option's number and refuses the next one. */
  lemma {:induction false} ChoiceByNumber(q: Question, k: nat)
    requires q.qtype == CHOICE && ParseOptions(q.options).Some?
    requires 1 <= k <= INT_MAX
    ensures k <= |ParseOptions(q.options).value| ==> ValidateAnswer(q, ShowNat(k)).None?
    ensures k == |ParseOptions(q.options).value| + 1 ==> ValidateAnswer(q, ShowNat(k)) == Some(ChoiceOutOfRange(k - 1))
  {
    var s := ShowNat(k);
    ParseShowNat(k, INT_MIN, INT_MAX);
    assert ToIntOrNull(s) == Some(k);
    assert !IsWhitespace(s[0]);
    assert s != "-" by { assert IsAsciiDigit(s[0]); }
  }

  /** A choice question accepts the text of any of its options that is not a number. */
  lemma {:induction false} ChoiceByText(q: Question, i: nat)
    requires q.qtype == CHOICE && ParseOptions(q.options).Some?
    requires i < |ParseOptions(q.options).value|
    requires ToIntOrNull(ParseOptions(q.options).value[i]).None?
    requires !IsBlank(ParseOptions(q.options).value[i])
    ensures ValidateAnswer(q, ParseOptions(q.options).value[i]).None?
  {
    var options := ParseOptions(q.options).value;
    assert EqualsIgnoreCase(options[i], options[i]);
  }

  // ---------------------------------------------------------------------
  // The dialog
  // ---------------------------------------------------------------------

  /**
   * The context of a started questionnaire: the application, the
   * vacancy's title and code, the questions and index 0 over what was there.
   */
  function QuestionnaireContext(before: Context, applicationId: int, vacancy: Vacancy, questions: seq<Question>)
    : (c: Context)
    ensures c.Keys == before.Keys + {KEY_APPLICATION_ID, KEY_VACANCY_TITLE, KEY_VACANCY_CODE, KEY_QUESTIONS, KEY_CURRENT_INDEX}
    ensures c[KEY_APPLICATION_ID] == Num(applicationId) && c[KEY_CURRENT_INDEX] == Num(0)
    ensures c[KEY_VACANCY_TITLE] == Text(vacancy.title) && c[KEY_VACANCY_CODE] == Text(vacancy.code)
    ensures c[KEY_QUESTIONS] == Questions(questions)
  {
    QuestionnaireKeysDistinct();
    before[KEY_APPLICATION_ID := Num(applicationId)][KEY_VACANCY_TITLE := Text(vacancy.title)]
      [KEY_VACANCY_CODE := Text(vacancy.code)][KEY_QUESTIONS := Questions(questions)][KEY_CURRENT_INDEX := Num(0)]
  }

  /** The keys the questionnaire writes are five different keys. */
  lemma {:induction false} QuestionnaireKeysDistinct()
    ensures KEY_APPLICATION_ID != KEY_VACANCY_TITLE && KEY_APPLICATION_ID != KEY_VACANCY_CODE && KEY_APPLICATION_ID != KEY_QUESTIONS && KEY_APPLICATION_ID != KEY_CURRENT_INDEX
    ensures KEY_VACANCY_TITLE != KEY_VACANCY_CODE && KEY_VACANCY_TITLE != KEY_QUESTIONS && KEY_VACANCY_TITLE != KEY_CURRENT_INDEX
    ensures KEY_VACANCY_CODE != KEY_QUESTIONS && KEY_VACANCY_CODE != KEY_CURRENT_INDEX && KEY_QUESTIONS != KEY_CURRENT_INDEX
  {
  }

  class ApplicantTelegramService {
    const userDb: UserDbService
    const vacancyDb: VacancyDbService
    const questionDb: QuestionDbService
    const applicationDb: ApplicationDbService
    const stateManager: ConversationStateManager

    ghost predicate Valid()
      reads this, userDb, vacancyDb, questionDb, applicationDb
    {
      userDb.Valid() && vacancyDb.Valid() && questionDb.Valid() && applicationDb.Valid()
    }

    constructor(userDb: UserDbService, vacancyDb: VacancyDbService, questionDb: QuestionDbService,
                applicationDb: ApplicationDbService, stateManager: ConversationStateManager)
      ensures this.userDb == userDb && this.vacancyDb == vacancyDb && this.questionDb == questionDb
      ensures this.applicationDb == applicationDb && this.stateManager == stateManager
    {
      this.userDb := userDb;
      this.vacancyDb := vacancyDb;
      this.questionDb := questionDb;
      this.applicationDb := applicationDb;
      this.stateManager := stateManager;
    }

    /** The sender's user: the existing one, or a new USER made from the message. */
    method EnsureUser(message: IncomingMessage, now: Minutes) returns (user: User)
      requires userDb.Valid()
      modifies userDb
      ensures userDb.Valid() && userDb.businessUsers == old(userDb.businessUsers)
      ensures userDb.FindByTelegramId(message.userId) == Some(user)
      ensures old(userDb.FindByTelegramId(message.userId)).Some? ==> userDb.users == old(userDb.users)
      ensures old(userDb.FindByTelegramId(message.userId)).None? ==>
                user.role == USER && user.firstName == message.firstName
                && user.lastName == message.lastName && user.username == message.username
    {
      var found := userDb.FindByTelegramId(message.userId);
      if found.Some? {
        return found.value;
      }
      var created := userDb.CreateUser(message.userId, message.firstName, message.lastName, message.username, USER, now);
      user := created.value;
    }

    /** handleStart: registers the sender if unknown. */
    method HandleStart(message: IncomingMessage, now: Minutes) returns (reply: ApplicantReply)
      requires Valid()
      modifies userDb
      ensures Valid() && reply == Welcome
      ensures userDb.FindByTelegramId(message.userId).Some?
      ensures old(userDb.FindByTelegramId(message.userId)).Some? ==> userDb.users == old(userDb.users)
    {
      var user := EnsureUser(message, now);
      reply := Welcome;
    }

    /**
     * handleCommand: a user in the middle of a dialog is handled by the
     * dialog; otherwise /help and /my are answered and anything else is
     * taken as a vacancy code.
     */
    method HandleCommand(message: IncomingMessage, command: string, now: Minutes) returns (reply: ApplicantReply)
      requires Valid()
      modifies userDb, applicationDb, stateManager
      ensures Valid()
      ensures old(stateManager.GetState(message.userId)) == NONE && StartsWith(command, "/help") ==>
                reply == Help && unchanged(userDb, applicationDb, stateManager)
      ensures old(stateManager.GetState(message.userId)) == NONE && !StartsWith(command, "/help") && StartsWith(command, "/my") ==>
                reply == MyApplications && unchanged(userDb, applicationDb, stateManager)
      ensures old(stateManager.GetState(message.userId)) == NONE && !StartsWith(command, "/help") && !StartsWith(command, "/my") ==>
                CodeOutcome(message, command, reply, now)
      ensures old(stateManager.GetState(message.userId)) != NONE ==>
                unchanged(userDb) && ConversationOutcome(message, reply, now)
    {
      if stateManager.GetState(message.userId) != NONE {
        reply := HandleConversationState(message, now);
        return;
      }
      if StartsWith(command, "/help") {
        return Help;
      }
      if StartsWith(command, "/my") {
        return MyApplications;
      }
      reply := HandleVacancyCodeInput(message, command, now);
    }

    /**
     * handleConversationState: the cancel button ends any dialog; the
     * questionnaire state takes the answer; any other state is reset.
     */
    twostate predicate ConversationOutcome(message: IncomingMessage, reply: ApplicantReply, now: Minutes)
      reads this, applicationDb, stateManager
    {
      (message.text == CANCEL ==>
         reply == Cancelled && stateManager.states == old(stateManager.states) - {message.userId}
         && stateManager.contexts == old(stateManager.contexts) - {message.userId}
         && unchanged(applicationDb))
      && (message.text != CANCEL && old(stateManager.GetState(message.userId)) == APPLICANT_ANSWERING_QUESTION ==>
            QuestionnaireAnswerOutcome(message, reply, now))
      && (message.text != CANCEL && old(stateManager.GetState(message.userId)) != APPLICANT_ANSWERING_QUESTION ==>
            reply == StateError && stateManager.states == old(stateManager.states) - {message.userId}
            && stateManager.contexts == old(stateManager.contexts) - {message.userId}
            && unchanged(applicationDb))
    }

    method HandleConversationState(message: IncomingMessage, now: Minutes) returns (reply: ApplicantReply)
      requires Valid()
      modifies applicationDb, stateManager
      ensures Valid()
      ensures ConversationOutcome(message, reply, now)
    {
      if message.text == CANCEL {
        stateManager.ClearState(message.userId);
        return Cancelled;
      }
      if stateManager.GetState(message.userId) == APPLICANT_ANSWERING_QUESTION {
        reply := HandleQuestionnaireAnswer(message, now);
      } else {
        stateManager.ClearState(message.userId);
        reply := StateError;
      }
    }

    /**
     * The checks of handleVacancyCodeInput that need no write: the code's
     * shape, that a vacancy has it, and that the vacancy is ACTIVE.
     */
    function LookupCode(code: string): (r: CodeLookup)
      reads this, vacancyDb
      requires vacancyDb.Valid()
      ensures !AcceptsCode(code) ==> r == Refused(BadCodeFormat)
      ensures AcceptsCode(code) && vacancyDb.FindByCode(CleanCode(code)).None? ==> r == Refused(VacancyNotFound(CleanCode(code)))
      ensures AcceptsCode(code) && vacancyDb.FindByCode(CleanCode(code)).Some?
              && vacancyDb.FindByCode(CleanCode(code)).value.status != ACTIVE ==>
                r == Refused(VacancyUnavailable(vacancyDb.FindByCode(CleanCode(code)).value.status))
      ensures r.Open? <==> AcceptsCode(code) && vacancyDb.FindByCode(CleanCode(code)).Some?
                           && vacancyDb.FindByCode(CleanCode(code)).value.status == ACTIVE
      ensures r.Open? ==> r.vacancy == vacancyDb.FindByCode(CleanCode(code)).value
                          && r.vacancy.id in vacancyDb.vacancies && r.vacancy.code == CleanCode(code)
    {
      var cleanCode := CleanCode(code);
      if !IsVacancyCode(cleanCode) then Refused(BadCodeFormat)
      else match vacancyDb.FindByCode(cleanCode)
        case None => Refused(VacancyNotFound(cleanCode))
        case Some(vacancy) => if vacancy.status != ACTIVE then Refused(VacancyUnavailable(vacancy.status)) else Open(vacancy)
    }

    /**
     * handleVacancyCodeInput: a refused code writes nothing. For an open
     * vacancy the sender is registered if unknown, a second application to
     * the same vacancy is refused, and otherwise an application is
     * created; with questions, the questionnaire starts at the first one.
     */
    twostate predicate CodeOutcome(message: IncomingMessage, code: string, reply: ApplicantReply, now: Minutes)
      reads this, userDb, vacancyDb, questionDb, applicationDb, stateManager
    {
      old(userDb.Valid()) && userDb.Valid() && vacancyDb.Valid()
      && var lookup := LookupCode(code);
      (lookup.Refused? ==> reply == lookup.reply && unchanged(userDb, applicationDb, stateManager))
      && (lookup.Open? ==>
            reply in SubmitReplies(lookup.vacancy)
            && userDb.FindByTelegramId(message.userId).Some?
            && (old(userDb.FindByTelegramId(message.userId)).Some? ==> userDb.users == old(userDb.users))
            && SubmitOutcome(message.userId, userDb.FindByTelegramId(message.userId).value.id, lookup.vacancy, reply, now))
    }

    method HandleVacancyCodeInput(message: IncomingMessage, code: string, now: Minutes) returns (reply: ApplicantReply)
      requires Valid()
      modifies userDb, applicationDb, stateManager
      ensures Valid()
      ensures CodeOutcome(message, code, reply, now)
    {
      var lookup := LookupCode(code);
      if lookup.Refused? {
        return lookup.reply;
      }
      reply := Apply(message, lookup.vacancy, now);
    }

    /**
     * What submitting the sender's (internal id `userId`) application to an
     * open vacancy did: a repeated application writes no application and
     * leaves the dialog; otherwise exactly one NEW application of the user
     * to the vacancy is added, and with questions the dialog is at the
     * first question.
     */
    twostate predicate SubmitOutcome(telegramId: int, userId: int, vacancy: Vacancy, reply: ApplicantReply, now: Minutes)
      reads this, questionDb, applicationDb, stateManager
    {
      old(applicationDb.Valid()) && applicationDb.Valid() && questionDb.Valid()
      && (reply == AlreadyApplied(vacancy.title) <==> old(applicationDb.ExistsByVacancyIdAndUserId(vacancy.id, userId)))
      && (reply == AlreadyApplied(vacancy.title) ==>
            applicationDb.applications == old(applicationDb.applications) && unchanged(stateManager))
      && (reply != AlreadyApplied(vacancy.title) ==>
            applicationDb.applications == old(applicationDb.applications)[old(applicationDb.nextApplicationId) :=
              Application(old(applicationDb.nextApplicationId), vacancy.id, userId, NEW, None, now, now)]
            && (reply == AppliedWithoutQuestions(vacancy.title, vacancy.location, vacancy.salary)
                <==> questionDb.FindByVacancyId(vacancy.id) == []))
      && (reply == AppliedWithoutQuestions(vacancy.title, vacancy.location, vacancy.salary) ==> unchanged(stateManager))
      && (reply == AskQuestion(0, vacancy.title) ==>
            stateManager.states == old(stateManager.states)[telegramId := APPLICANT_ANSWERING_QUESTION]
            && stateManager.contexts == old(stateManager.contexts)[telegramId :=
                 QuestionnaireContext(old(stateManager.GetContext(telegramId)), old(applicationDb.nextApplicationId),
                                      vacancy, questionDb.FindByVacancyId(vacancy.id))])
    }

    /** handleVacancyCodeInput from the user lookup on, for an open vacancy. */
    method Apply(message: IncomingMessage, vacancy: Vacancy, now: Minutes) returns (reply: ApplicantReply)
      requires Valid()
      modifies userDb, applicationDb, stateManager
      ensures Valid()
      ensures reply in SubmitReplies(vacancy)
      ensures userDb.FindByTelegramId(message.userId).Some?
      ensures old(userDb.FindByTelegramId(message.userId)).Some? ==> userDb.users == old(userDb.users)
      ensures SubmitOutcome(message.userId, userDb.FindByTelegramId(message.userId).value.id, vacancy, reply, now)
    {
      var user := EnsureUser(message, now);
      reply := Submit(message.userId, user.id, vacancy, now);
    }

    /** The application itself, once the sender's user is known. */
    method Submit(telegramId: int, userId: int, vacancy: Vacancy, now: Minutes) returns (reply: ApplicantReply)
      requires Valid()
      modifies applicationDb, stateManager
      ensures Valid()
      ensures reply in SubmitReplies(vacancy)
      ensures SubmitOutcome(telegramId, userId, vacancy, reply, now)
    {
      if applicationDb.ExistsByVacancyIdAndUserId(vacancy.id, userId) {
        return AlreadyApplied(vacancy.title);
      }
      reply := SubmitNew(telegramId, userId, vacancy, now);
    }

    /** A first application of the user to the vacancy: created, and the questionnaire started if there is one. */
    method SubmitNew(telegramId: int, userId: int, vacancy: Vacancy, now: Minutes) returns (reply: ApplicantReply)
      requires Valid() && !applicationDb.ExistsByVacancyIdAndUserId(vacancy.id, userId)
      modifies applicationDb, stateManager
      ensures Valid()
      ensures reply in SubmitReplies(vacancy) - {AlreadyApplied(vacancy.title)}
      ensures SubmitOutcome(telegramId, userId, vacancy, reply, now)
    {
      var questions := questionDb.FindByVacancyId(vacancy.id);
      var application := applicationDb.CreateApplication(vacancy.id, userId, now);
      if questions == [] {
        return AppliedWithoutQuestions(vacancy.title, vacancy.location, vacancy.salary);
      }
      StartQuestionnaire(telegramId, application.value.id, vacancy, questions);
      reply := AskQuestion(0, vacancy.title);
    }

    /** Stores the questionnaire's context and enters the answering state; no other user changes. */
    method StartQuestionnaire(userId: int, applicationId: int, vacancy: Vacancy, questions: seq<Question>)
      modifies stateManager
      ensures stateManager.states == old(stateManager.states)[userId := APPLICANT_ANSWERING_QUESTION]
      ensures stateManager.contexts == old(stateManager.contexts)[userId :=
                QuestionnaireContext(old(stateManager.GetContext(userId)), applicationId, vacancy, questions)]
      ensures stateManager.GetState(userId) == APPLICANT_ANSWERING_QUESTION
      ensures stateManager.GetContextValue(userId, KEY_CURRENT_INDEX) == Some(Num(0))
      ensures stateManager.GetContextValue(userId, KEY_APPLICATION_ID) == Some(Num(applicationId))
      ensures stateManager.GetContextValue(userId, KEY_QUESTIONS) == Some(Questions(questions))
    {
      ghost var before := stateManager.GetContext(userId);
      ghost var contexts := stateManager.contexts;
      ghost var c1 := stateManager.GetContext(userId)[KEY_APPLICATION_ID := Num(applicationId)]
                        [KEY_VACANCY_TITLE := Text(vacancy.title)][KEY_VACANCY_CODE := Text(vacancy.code)];
      StoreApplicationContext(userId, applicationId, vacancy);
      StoreQuestionsContext(userId, questions);
      Overwrite(contexts, userId, c1, c1[KEY_QUESTIONS := Questions(questions)][KEY_CURRENT_INDEX := Num(0)]);
      QuestionnaireStarted(userId, applicationId, vacancy, questions, before);
    }

    /** What the answering step reads back from a started questionnaire. */
    lemma {:induction false} QuestionnaireStarted(userId: int, applicationId: int, vacancy: Vacancy, questions: seq<Question>,
                               before: Context)
      requires userId in stateManager.states && stateManager.states[userId] == APPLICANT_ANSWERING_QUESTION
      requires userId in stateManager.contexts
      requires stateManager.contexts[userId] == QuestionnaireContext(before, applicationId, vacancy, questions)
      ensures stateManager.GetState(userId) == APPLICANT_ANSWERING_QUESTION
      ensures stateManager.GetContextValue(userId, KEY_CURRENT_INDEX) == Some(Num(0))
      ensures stateManager.GetContextValue(userId, KEY_APPLICATION_ID) == Some(Num(applicationId))
      ensures stateManager.GetContextValue(userId, KEY_QUESTIONS) == Some(Questions(questions))
    {
    }

    /** The first three writes of the questionnaire's context. */
    method StoreApplicationContext(userId: int, applicationId: int, vacancy: Vacancy)
      modifies stateManager
      ensures stateManager.states == old(stateManager.states)
      ensures stateManager.contexts == old(stateManager.contexts)[userId := old(stateManager.GetContext(userId))
                [KEY_APPLICATION_ID := Num(applicationId)][KEY_VACANCY_TITLE := Text(vacancy.title)]
                [KEY_VACANCY_CODE := Text(vacancy.code)]]
    {
      ghost var contexts := stateManager.contexts;
      ghost var c1 := stateManager.GetContext(userId)[KEY_APPLICATION_ID := Num(applicationId)];
      stateManager.SetContextValue(userId, KEY_APPLICATION_ID, Num(applicationId));
      ghost var c2 := c1[KEY_VACANCY_TITLE := Text(vacancy.title)];
      stateManager.SetContextValue(userId, KEY_VACANCY_TITLE, Text(vacancy.title));
      Overwrite(contexts, userId, c1, c2);
      ghost var c3 := c2[KEY_VACANCY_CODE := Text(vacancy.code)];
      stateManager.SetContextValue(userId, KEY_VACANCY_CODE, Text(vacancy.code));
      Overwrite(contexts, userId, c2, c3);
    }

    /** The last two writes of the questionnaire's context, and the answering state. */
    method StoreQuestionsContext(userId: int, questions: seq<Question>)
      modifies stateManager
      ensures stateManager.states == old(stateManager.states)[userId := APPLICANT_ANSWERING_QUESTION]
      ensures stateManager.contexts == old(stateManager.contexts)[userId := old(stateManager.GetContext(userId))
                [KEY_QUESTIONS := Questions(questions)][KEY_CURRENT_INDEX := Num(0)]]
    {
      ghost var contexts := stateManager.contexts;
      ghost var c1 := stateManager.GetContext(userId)[KEY_QUESTIONS := Questions(questions)];
      stateManager.SetContextValue(userId, KEY_QUESTIONS, Questions(questions));
      ghost var c2 := c1[KEY_CURRENT_INDEX := Num(0)];
      stateManager.SetContextValue(userId, KEY_CURRENT_INDEX, Num(0));
      Overwrite(contexts, userId, c1, c2);
      stateManager.SetState(userId, APPLICANT_ANSWERING_QUESTION);
    }

    /**
     * handleQuestionnaireAnswer: a missing application or question list,
     * or an index past the end, resets the dialog. An answer refused by
     * validateAnswer writes nothing. An accepted answer is stored with its
     * question's text, type and position (index + 1); the index then
     * moves on by one, and after the last question the dialog is reset.
     */
    twostate predicate QuestionnaireAnswerOutcome(message: IncomingMessage, reply: ApplicantReply, now: Minutes)
      reads this, applicationDb, stateManager
    {
      var userId := message.userId;
      var applicationId := NumValue(old(stateManager.GetContextValue(userId, KEY_APPLICATION_ID)));
      var questions := QuestionsValue(old(stateManager.GetContextValue(userId, KEY_QUESTIONS)));
      var index := NumValue(old(stateManager.GetContextValue(userId, KEY_CURRENT_INDEX))).GetOr(0);
      var title := TextValue(old(stateManager.GetContextValue(userId, KEY_VACANCY_TITLE))).GetOr(NO_TITLE);
      var code := TextValue(old(stateManager.GetContextValue(userId, KEY_VACANCY_CODE))).GetOr(NO_CODE);
      if applicationId.None? || questions.None? || index >= |questions.value| then
        reply == StateError
        && stateManager.states == old(stateManager.states) - {userId}
        && stateManager.contexts == old(stateManager.contexts) - {userId}
        && unchanged(applicationDb)
      else if index < 0 then
        reply == Thrown(INDEX_OUT_OF_BOUNDS) && unchanged(applicationDb, stateManager)
      else
        AnswerOutcome(userId, applicationId.value, questions.value, index, Trim(message.text), title, code, reply, now)
    }

    method HandleQuestionnaireAnswer(message: IncomingMessage, now: Minutes) returns (reply: ApplicantReply)
      requires Valid()
      modifies applicationDb, stateManager
      ensures Valid()
      ensures QuestionnaireAnswerOutcome(message, reply, now)
    {
      var userId := message.userId;
      var applicationId := NumValue(stateManager.GetContextValue(userId, KEY_APPLICATION_ID));
      if applicationId.None? {
        stateManager.ClearState(userId);
        return StateError;
      }
      var questions := QuestionsValue(stateManager.GetContextValue(userId, KEY_QUESTIONS));
      if questions.None? {
        stateManager.ClearState(userId);
        return StateError;
      }
      var index := NumValue(stateManager.GetContextValue(userId, KEY_CURRENT_INDEX)).GetOr(0);
      if index >= |questions.value| {
        stateManager.ClearState(userId);
        return StateError;
      }
      if index < 0 {
        return Thrown(INDEX_OUT_OF_BOUNDS);
      }
      var title := TextValue(stateManager.GetContextValue(userId, KEY_VACANCY_TITLE)).GetOr(NO_TITLE);
      var code := TextValue(stateManager.GetContextValue(userId, KEY_VACANCY_CODE)).GetOr(NO_CODE);
      reply := AnswerQuestion(userId, applicationId.value, questions.value, index, Trim(message.text), title, code, now);
    }

    /**
     * One answer to the question at `index`: an answer refused by
     * validateAnswer writes nothing; a question already answered in this
     * application throws on the unique constraint and writes nothing;
     * otherwise exactly one answer row is added under the next id, with
     * the question's text, type and position, and the dialog moves on to
     * the next question or, after the last, ends.
     */
    twostate predicate AnswerOutcome(userId: int, applicationId: int, questions: seq<Question>, index: nat,
                                     answer: string, title: string, code: string, reply: ApplicantReply, now: Minutes)
      reads this, applicationDb, stateManager
      requires index < |questions|
    {
      var q := questions[index];
      var accepted := ValidateAnswer(q, answer).None?;
      old(applicationDb.Valid()) && applicationDb.Valid()
      && applicationDb.applications == old(applicationDb.applications)
      && (ValidateAnswer(q, answer).Some? <==> reply.InvalidAnswer?)
      && (reply.InvalidAnswer? ==> reply.message == ValidateAnswer(q, answer).value && unchanged(applicationDb, stateManager))
      && (reply.Thrown? <==> accepted && old(applicationDb.AnswerFor(applicationId, q.id)).Some?)
      && (reply.Thrown? ==>
            reply == Thrown(DUPLICATE_ANSWER)
            && applicationDb.answers == old(applicationDb.answers) && applicationDb.nextAnswerId == old(applicationDb.nextAnswerId)
            && unchanged(stateManager))
      && (reply == Completed(title, code, |questions|) || reply == AskQuestion(index + 1, title) ==>
            applicationDb.answers == old(applicationDb.answers)[old(applicationDb.nextAnswerId) :=
              Answer(old(applicationDb.nextAnswerId), applicationId, q.id, answer, q.text, TypeName(q.qtype), index + 1, now)]
            && applicationDb.nextAnswerId == old(applicationDb.nextAnswerId) + 1)
      && (reply == Completed(title, code, |questions|) <==> accepted && !reply.Thrown? && index + 1 == |questions|)
      && (reply == Completed(title, code, |questions|) ==>
            stateManager.states == old(stateManager.states) - {userId}
            && stateManager.contexts == old(stateManager.contexts) - {userId})
      && (reply == AskQuestion(index + 1, title) ==>
            stateManager.states == old(stateManager.states)
            && stateManager.contexts == old(stateManager.contexts)[userId :=
                 old(stateManager.GetContext(userId))[KEY_CURRENT_INDEX := Num(index + 1)]])
      && (reply in {Completed(title, code, |questions|), AskQuestion(index + 1, title)} || reply.InvalidAnswer? || reply.Thrown?)
    }

    /** The part of handleQuestionnaireAnswer after the context was read. */
    method AnswerQuestion(userId: int, applicationId: int, questions: seq<Question>, index: nat, answer: string,
                          title: string, code: string, now: Minutes)
      returns (reply: ApplicantReply)
      requires Valid() && index < |questions|
      modifies applicationDb, stateManager
      ensures Valid()
      ensures AnswerOutcome(userId, applicationId, questions, index, answer, title, code, reply, now)
    {
      var q := questions[index];
      var error := ValidateAnswer(q, answer);
      if error.Some? {
        return InvalidAnswer(error.value);
      }
      var saved := applicationDb.SaveAnswer(applicationId, q.id, answer, q.text, TypeName(q.qtype), index + 1, now);
      if saved.Fail? {
        return Thrown(saved.error);
      }
      assert applicationDb.answers[saved.value.id] == saved.value;
      reply := MoveOn(userId, index, |questions|, title, code);
    }

    /**
     * After a saved answer: the last one ends the conversation, any other
     * stores the next index and asks the next question.
     */
    method MoveOn(userId: int, index: nat, count: nat, title: string, code: string) returns (reply: ApplicantReply)
      requires index < count
      modifies stateManager
      ensures index + 1 == count ==>
                reply == Completed(title, code, count)
                && stateManager.states == old(stateManager.states) - {userId}
                && stateManager.contexts == old(stateManager.contexts) - {userId}
      ensures index + 1 < count ==>
                reply == AskQuestion(index + 1, title)
                && stateManager.states == old(stateManager.states)
                && stateManager.contexts == old(stateManager.contexts)[userId :=
                     old(stateManager.GetContext(userId))[KEY_CURRENT_INDEX := Num(index + 1)]]
    {
      if index + 1 >= count {
        stateManager.ClearState(userId);
        return Completed(title, code, count);
      }
      stateManager.SetContextValue(userId, KEY_CURRENT_INDEX, Num(index + 1));
      reply := AskQuestion(index + 1, title);
    }
  }
}
