/**
 * The in-memory conversation store: per user, the dialog state the bot is
 * in and a context of named values collected along the way. A user the
 * store has never seen is in state NONE with an empty context.
 */
module ConversationStore {
  import opened Common
  import opened Domain

  /**
   * The dialog states of the three bots. ConversationState.kt is not part
   * of this model; these are the constants the dialog code refers to.
   */
  datatype ConversationState =
    | NONE
    // applicant
    | APPLICANT_CONFIRM_VACANCY
    | APPLICANT_ANSWERING_QUESTION
    // business: vacancies
    | VACANCY_CREATE_TITLE
    | VACANCY_CREATE_DESCRIPTION
    | VACANCY_CREATE_LOCATION
    | VACANCY_CREATE_SALARY
    | VACANCY_CREATE_QUESTIONNAIRE_CHOICE
    | VACANCY_CREATE_PREVIEW
    | VACANCY_CHANGE_STATUS
    | VACANCY_DELETE_CONFIRM
    | VACANCY_EDIT_CHOOSE_FIELD
    | VACANCY_EDIT_INPUT_VALUE
    | VIEWING_VACANCY_DETAILS
    | VIEWING_VACANCY_APPLICATIONS
    // business: questions
    | QUESTION_ADD_TEXT
    | QUESTION_ADD_TYPE
    | QUESTION_ADD_OPTIONS
    | QUESTION_ADD_REQUIRED
    | QUESTIONNAIRE_MANAGEMENT_MENU
    | QUESTIONNAIRE_DELETE_ENTER_NUMBER
    | QUESTIONNAIRE_EDIT_CHOOSE_QUESTION
    | QUESTIONNAIRE_EDIT_CHOOSE_FIELD
    | QUESTIONNAIRE_EDIT_INPUT_VALUE
    // business: applications
    | VIEWING_APPLICATION_DETAILS
    | CHANGING_APPLICATION_STATUS
    | ADDING_APPLICATION_NOTES
    // business: broadcasts
    | BROADCAST_MENU
    | BROADCAST_CHANNEL_MANAGEMENT
    | BROADCAST_CHANNEL_ADD_ID
    | BROADCAST_CHANNEL_DELETE_CONFIRM
    | BROADCAST_CAMPAIGNS_LIST
    | BROADCAST_CAMPAIGN_CREATE_TITLE
    | BROADCAST_CAMPAIGN_CREATE_MESSAGE
    | BROADCAST_CAMPAIGN_PREVIEW
    | BROADCAST_CAMPAIGN_VIEW_DETAILS
    | BROADCAST_CAMPAIGN_SCHEDULE_TYPE
    | BROADCAST_CAMPAIGN_SCHEDULE_TIME
    // superadmin
    | SUPERADMIN_ACTIVATE_ENTER_TELEGRAM_ID
    | SUPERADMIN_ACTIVATE_ENTER_NAME
    | SUPERADMIN_ACTIVATE_ENTER_DESCRIPTION
    | SUPERADMIN_BLOCK_ENTER_ID
    | SUPERADMIN_BLOCK_ENTER_REASON
    | SUPERADMIN_UNBLOCK_ENTER_ID

  /**
   * A question collected for a vacancy that is not saved yet: the default
   * questions carry their order index, custom ones carry their options when
   * any were entered.
   */
  datatype PendingQuestion = PendingQuestion(
    text: string,
    typeName: string,
    isRequired: bool,
    orderIndex: Option<int>,
    options: Option<seq<string>>)

  /**
   * A context value. The store itself holds values of any type; these are
   * the kinds the dialogs put into it.
   */
  datatype Value =
    | Num(n: int)
    | Text(s: string)
    | Flag(b: bool)
    | Texts(items: seq<string>)
    | Questions(questions: seq<Question>)
    | Pending(pending: seq<PendingQuestion>)

  type Context = map<string, Value>

  /** An integer context value; a value of another kind counts as absent. */
  function NumValue(v: Option<Value>): (n: Option<int>)
    ensures n.Some? <==> v.Some? && v.value.Num?
    ensures n.Some? ==> n.value == v.value.n
  {
    match v
    case Some(Num(n)) => Some(n)
    case _ => None
  }

  /** A text context value; a value of another kind counts as absent. */
  function TextValue(v: Option<Value>): (t: Option<string>)
    ensures t.Some? <==> v.Some? && v.value.Text?
    ensures t.Some? ==> t.value == v.value.s
  {
    match v
    case Some(Text(t)) => Some(t)
    case _ => None
  }

  /** A question-list context value; a value of another kind counts as absent. */
  function QuestionsValue(v: Option<Value>): (qs: Option<seq<Question>>)
    ensures qs.Some? <==> v.Some? && v.value.Questions?
    ensures qs.Some? ==> qs.value == v.value.questions
  {
    match v
    case Some(Questions(qs)) => Some(qs)
    case _ => None
  }

  /** A boolean context value; a value of another kind counts as absent. */
  function FlagValue(v: Option<Value>): (b: Option<bool>)
    ensures b.Some? <==> v.Some? && v.value.Flag?
    ensures b.Some? ==> b.value == v.value.b
  {
    match v
    case Some(Flag(b)) => Some(b)
    case _ => None
  }

  /** A list-of-strings context value; a value of another kind counts as absent. */
  function TextsValue(v: Option<Value>): (items: Option<seq<string>>)
    ensures items.Some? <==> v.Some? && v.value.Texts?
    ensures items.Some? ==> items.value == v.value.items
  {
    match v
    case Some(Texts(items)) => Some(items)
    case _ => None
  }

  /** The list of questions collected for an unsaved vacancy; another kind counts as absent. */
  function PendingValue(v: Option<Value>): (ps: Option<seq<PendingQuestion>>)
    ensures ps.Some? <==> v.Some? && v.value.Pending?
    ensures ps.Some? ==> ps.value == v.value.pending
  {
    match v
    case Some(Pending(ps)) => Some(ps)
    case _ => None
  }

  class ConversationStateManager {
    var states: map<int, ConversationState>
    var contexts: map<int, Context>

    constructor()
      ensures states == map[] && contexts == map[]
    {
      states := map[];
      contexts := map[];
    }

    /** getState: the stored state, NONE for a user without one. */
    function GetState(userId: int): (s: ConversationState)
      reads this
      ensures userId in states ==> s == states[userId]
      ensures userId !in states ==> s == NONE
    {
      if userId in states then states[userId] else NONE
    }

    /** setState: this user's state becomes `state`; nothing else changes. */
    method SetState(userId: int, state: ConversationState)
      modifies this
      ensures GetState(userId) == state
      ensures forall u :: u != userId ==> GetState(u) == old(GetState(u))
      ensures states == old(states)[userId := state] && contexts == old(contexts)
    {
      states := states[userId := state];
    }

    /** clearState: forgets both the state and the whole context of this user. */
    method ClearState(userId: int)
      modifies this
      ensures GetState(userId) == NONE && GetContext(userId) == map[]
      ensures states == old(states) - {userId} && contexts == old(contexts) - {userId}
    {
      states := states - {userId};
      contexts := contexts - {userId};
    }

    /**
     * setContextValue: stores the value under the key in this user's
     * context, creating the context on first use.
     */
    method SetContextValue(userId: int, key: string, value: Value)
      modifies this
      ensures GetContextValue(userId, key) == Some(value)
      ensures GetContext(userId) == old(GetContext(userId))[key := value]
      ensures states == old(states)
      ensures forall u :: u != userId ==> GetContext(u) == old(GetContext(u))
      ensures contexts == old(contexts)[userId := old(GetContext(userId))[key := value]]
    {
      var context := if userId in contexts then contexts[userId] else map[];
      contexts := contexts[userId := context[key := value]];
    }

    /** getContextValue: the value under the key, if this user has one. */
    function GetContextValue(userId: int, key: string): (v: Option<Value>)
      reads this
      ensures v.Some? <==> userId in contexts && key in contexts[userId]
      ensures v.Some? ==> v.value == contexts[userId][key]
    {
      if userId in contexts && key in contexts[userId] then Some(contexts[userId][key]) else None
    }

    /** getContext: this user's whole context, empty for a user without one. */
    function GetContext(userId: int): (c: Context)
      reads this
      ensures userId !in contexts ==> c == map[]
      ensures forall key :: key in c <==> GetContextValue(userId, key).Some?
      ensures forall key :: key in c ==> GetContextValue(userId, key) == Some(c[key])
    {
      if userId in contexts then contexts[userId] else map[]
    }

    /**
     * clearContextValue: removes exactly one key from this user's context;
     * a user without a context is left without one.
     */
    method ClearContextValue(userId: int, key: string)
      modifies this
      ensures GetContextValue(userId, key) == None
      ensures GetContext(userId) == old(GetContext(userId)) - {key}
      ensures states == old(states)
      ensures forall u :: u != userId ==> GetContext(u) == old(GetContext(u))
      ensures userId in old(contexts) <==> userId in contexts
      ensures contexts == if userId in old(contexts) then old(contexts)[userId := old(contexts)[userId] - {key}]
                          else old(contexts)
    {
      if userId in contexts {
        contexts := contexts[userId := contexts[userId] - {key}];
      }
    }

    /** clearContext: forgets this user's context and keeps the state. */
    method ClearContext(userId: int)
      modifies this
      ensures GetContext(userId) == map[]
      ensures states == old(states) && contexts == old(contexts) - {userId}
    {
      contexts := contexts - {userId};
    }
  }
}
