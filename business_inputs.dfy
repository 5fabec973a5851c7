/**
 * How the business bot reads what a representative types: the length
 * limits of a new vacancy, the questionnaire choice, a question's type,
 * options and whether it is required, the names of statuses and the
 * choice and value of a campaign schedule.
 */
module BusinessInputs {
  import opened Common
  import opened Domain
  import opened ConversationStore
  import opened BroadcastDb

  const MIN_TITLE_LENGTH: nat := 5
  const MAX_TITLE_LENGTH: nat := 255
  const MIN_DESCRIPTION_LENGTH: nat := 20
  const MIN_QUESTION_LENGTH: nat := 5
  const MIN_OPTIONS: nat := 2
  /** The answer that skips an optional field. */
  const SKIP: string := "-"

  /** A location or salary: the trimmed text, or nothing when it is the skip mark. */
  function OptionalField(text: string): Option<string>
  {
    var value := Trim(text);
    if value == SKIP then None else Some(value)
  }

  // ---------------------------------------------------------------------
  // The questionnaire of a new vacancy
  // ---------------------------------------------------------------------

  /**
   * getDefaultQuestionsData: the name (TEXT, required), the phone (PHONE,
   * required) and the age (NUMBER, optional), with order indexes 1 to 3.
   */
  function DefaultPendingQuestions(): (qs: seq<PendingQuestion>)
    ensures |qs| == 3
    ensures forall i :: 0 <= i < |qs| ==> qs[i].orderIndex == Some(i + 1) && qs[i].options.None?
    ensures forall i :: 0 <= i < |qs| ==> (qs[i].isRequired <==> i < 2)
  {
    [ PendingQuestion("Как вас зовут?", "TEXT", true, Some(1), None),
      PendingQuestion("Ваш номер телефона", "PHONE", true, Some(2), None),
      PendingQuestion("Сколько вам лет?", "NUMBER", false, Some(3), None) ]
  }

  /** What the answer at the questionnaire choice asks for. */
  datatype QuestionnaireAction = UseDefaults | AddOwn | Finish | SkipQuestions | UnknownAction

  predicate AsksForDefaults(choice: string)
  {
    Contains(choice, "только базовые") || Contains(choice, "базовые")
  }

  predicate AsksToAdd(choice: string)
  {
    Contains(choice, "добавить") && (Contains(choice, "свои") || Contains(choice, "еще"))
  }

  predicate AsksToFinish(choice: string)
  {
    Contains(choice, "готово") || Contains(choice, "завершить")
  }

  /**
   * The branch taken for a trimmed, lower-cased answer: the first of
   * defaults, adding, finishing and skipping whose words it contains.
   */
  function ClassifyChoice(choice: string): (a: QuestionnaireAction)
    ensures a == UseDefaults <==> AsksForDefaults(choice)
    ensures a == AddOwn <==> !AsksForDefaults(choice) && AsksToAdd(choice)
    ensures a == Finish <==> !AsksForDefaults(choice) && !AsksToAdd(choice) && AsksToFinish(choice)
    ensures a == SkipQuestions <==> !AsksForDefaults(choice) && !AsksToAdd(choice) && !AsksToFinish(choice)
                                    && Contains(choice, "пропустить")
  {
    if AsksForDefaults(choice) then UseDefaults
    else if AsksToAdd(choice) then AddOwn
    else if AsksToFinish(choice) then Finish
    else if Contains(choice, "пропустить") then SkipQuestions
    else UnknownAction
  }

  /** A string that contains a character it does not contain a substring with. */
  lemma {:induction false} NotContains(s: string, sub: string, c: char)
    requires c in sub && c !in s
    ensures !Contains(s, sub)
  {
    if Contains(s, sub) {
      ContainsChars(s, sub);
    }
  }

  lemma {:induction false} DefaultsAnswer(choice: string)
    requires choice == "только базовые"
    ensures ClassifyChoice(choice) == UseDefaults
  {
    ContainsSelf(choice);
  }

  lemma {:induction false} AddAnswer(choice: string, word: string)
    requires word == "свои" || word == "еще"
    requires choice == "добавить " + word
    ensures ClassifyChoice(choice) == AddOwn
  {
    NotContains(choice, "только базовые", 'з');
    NotContains(choice, "базовые", 'з');
    assert |"добавить "| == 9;
    assert choice[..8] == "добавить";
    ContainsAt(choice, "добавить", 0);
    assert choice[9..9 + |word|] == word;
    ContainsAt(choice, word, 9);
  }

  lemma {:induction false} FinishAnswer(choice: string)
    requires choice == "готово"
    ensures ClassifyChoice(choice) == Finish
  {
    NotContains(choice, "только базовые", 'з');
    NotContains(choice, "базовые", 'з');
    NotContains(choice, "добавить", 'д');
    ContainsSelf(choice);
  }

  lemma {:induction false} SkipAnswer(choice: string)
    requires choice == "пропустить"
    ensures ClassifyChoice(choice) == SkipQuestions
  {
    NotContains(choice, "только базовые", 'з');
    NotContains(choice, "базовые", 'з');
    NotContains(choice, "добавить", 'д');
    NotContains(choice, "готово", 'г');
    NotContains(choice, "завершить", 'з');
    ContainsSelf(choice);
  }

  /**
   * Every answer the prompts offer, lower-cased, takes the branch it
   * names.
   */
  lemma {:induction false} OfferedChoices(choice: string)
    ensures choice == "только базовые" ==> ClassifyChoice(choice) == UseDefaults
    ensures choice == "добавить свои" || choice == "добавить еще" ==> ClassifyChoice(choice) == AddOwn
    ensures choice == "готово" ==> ClassifyChoice(choice) == Finish
    ensures choice == "пропустить" ==> ClassifyChoice(choice) == SkipQuestions
  {
    if choice == "только базовые" {
      DefaultsAnswer(choice);
    } else if choice == "добавить свои" {
      AddAnswer(choice, "свои");
    } else if choice == "добавить еще" {
      AddAnswer(choice, "еще");
    } else if choice == "готово" {
      FinishAnswer(choice);
    } else if choice == "пропустить" {
      SkipAnswer(choice);
    }
  }

  // ---------------------------------------------------------------------
  // Question type, options, required
  // ---------------------------------------------------------------------

  /**
   * The question type named by the trimmed answer: its number in the
   * menu, its enum name or its Russian word, matched exactly.
   */
  function ParseQuestionType(input: string): (t: Option<QuestionType>)
    ensures t == Some(TEXT) <==> input == "1" || input == "TEXT" || input == "текст"
    ensures t == Some(NUMBER) <==> input == "2" || input == "NUMBER" || input == "число"
    ensures t == Some(YES_NO) <==> input == "3" || input == "YES_NO" || input == "да/нет"
    ensures t == Some(CHOICE) <==> input == "4" || input == "CHOICE" || input == "выбор"
    ensures t != Some(PHONE) && t != Some(DATE)
  {
    if input == "1" || input == "TEXT" || input == "текст" then Some(TEXT)
    else if input == "2" || input == "NUMBER" || input == "число" then Some(NUMBER)
    else if input == "3" || input == "YES_NO" || input == "да/нет" then Some(YES_NO)
    else if input == "4" || input == "CHOICE" || input == "выбор" then Some(CHOICE)
    else None
  }

  /** `QuestionType.valueOf(name)`: the constant with this name; any other name throws. */
  function TypeFromName(name: string): (t: Option<QuestionType>)
    ensures t.Some? ==> TypeName(t.value) == name
    ensures forall q: QuestionType :: TypeName(q) == name ==> t == Some(q)
  {
    if name == "TEXT" then Some(TEXT)
    else if name == "NUMBER" then Some(NUMBER)
    else if name == "PHONE" then Some(PHONE)
    else if name == "YES_NO" then Some(YES_NO)
    else if name == "CHOICE" then Some(CHOICE)
    else if name == "DATE" then Some(DATE)
    else None
  }

  /**
   * The type chosen at the type step is kept as its name and read back,
   * unchanged, at the required step; an enum name typed as the answer
   * selects that type.
   */
  lemma {:induction false} QuestionTypeRoundTrip(input: string, t: QuestionType)
    ensures ParseQuestionType(input) == Some(t) ==> TypeFromName(TypeName(t)) == Some(t)
    ensures t != PHONE && t != DATE ==> ParseQuestionType(TypeName(t)) == Some(t)
  {
  }

  /** One option of a CHOICE question: not empty, no surrounding whitespace, no comma. */
  predicate IsOptionItem(s: string)
  {
    s != [] && !IsWhitespace(s[0]) && !IsWhitespace(s[|s| - 1]) && ',' !in s
  }

  /** Trimming never brings in a character. */
  lemma {:induction false} TrimKeepsOut(s: string, c: char)
    requires c !in s
    ensures c !in Trim(s)
  {
    var t := TrimStart(s);
    SliceKeepsOut(s, |s| - |t|, |s|, c);
    SliceKeepsOut(t, 0, |TrimEnd(t)|, c);
  }

  /** A slice holds only characters of the whole. */
  lemma {:induction false} SliceKeepsOut(s: string, lo: nat, hi: nat, c: char)
    requires lo <= hi <= |s| && c !in s
    ensures c !in s[lo..hi]
  {
    forall i | 0 <= i < hi - lo
      ensures s[lo..hi][i] != c
    {
      assert s[lo..hi][i] == s[lo + i];
    }
  }

  /** The pieces, trimmed, with the empty ones dropped. */
  function CleanOptions(pieces: seq<string>): (items: seq<string>)
    requires forall i :: 0 <= i < |pieces| ==> ',' !in pieces[i]
    ensures |items| <= |pieces|
    ensures forall i :: 0 <= i < |items| ==> IsOptionItem(items[i])
  {
    if pieces == [] then []
    else
      var item := Trim(pieces[0]);
      TrimKeepsOut(pieces[0], ',');
      (if item == [] then [] else [item]) + CleanOptions(pieces[1..])
  }

  /** The options typed for a CHOICE question: split on commas, trimmed, blanks dropped. */
  function SplitOptions(input: string): (items: seq<string>)
    ensures forall i :: 0 <= i < |items| ==> IsOptionItem(items[i])
  {
    CleanOptions(Split(input, ','))
  }

  lemma {:induction false} IndexOfSeparator(a: string, b: string, c: char)
    requires c !in a
    ensures IndexOf(a + [c] + b, c) == Some(|a|)
  {
    var s := a + [c] + b;
    assert s[|a|] == c;
    assert forall j :: 0 <= j < |a| ==> s[j] == a[j];
  }

  /** Splitting on a separator no part contains gives the parts back. */
  lemma {:induction false} SplitJoin(parts: seq<string>, sep: char)
    requires |parts| >= 1
    requires forall i :: 0 <= i < |parts| ==> sep !in parts[i]
    ensures Split(Join(parts, sep), sep) == parts
    decreases |parts|
  {
    if |parts| == 1 {
      assert Join(parts, sep) == parts[0];
      assert forall j :: 0 <= j < |parts[0]| ==> parts[0][j] != sep;
    } else {
      var rest := Join(parts[1..], sep);
      var s := parts[0] + [sep] + rest;
      assert Join(parts, sep) == s;
      IndexOfSeparator(parts[0], rest, sep);
      var k := |parts[0]|;
      assert s[..k] == parts[0];
      assert s[k + 1..] == rest;
      SplitJoin(parts[1..], sep);
      assert Split(s, sep) == [parts[0]] + parts[1..];
    }
  }

  lemma {:induction false} CleanOptionItems(items: seq<string>)
    requires forall i :: 0 <= i < |items| ==> IsOptionItem(items[i])
    requires forall i :: 0 <= i < |items| ==> ',' !in items[i]
    ensures CleanOptions(items) == items
  {
    if items != [] {
      TrimWithoutOuterSpace(items[0]);
      CleanOptionItems(items[1..]);
    }
  }

  /**
   * Options written one after the other with commas between them are read
   * back exactly, in order; with no options there is nothing to read.
   */
  lemma OptionsRoundTrip(items: seq<string>)
    requires forall i :: 0 <= i < |items| ==> IsOptionItem(items[i])
    ensures SplitOptions(Join(items, ',')) == items
  {
    if items == [] {
      assert Split([], ',') == [[]];
      assert CleanOptions([[]]) == [] + CleanOptions([]);
    } else {
      assert forall i :: 0 <= i < |items| ==> ',' !in items[i] by {
        forall i | 0 <= i < |items| ensures ',' !in items[i] {
          assert IsOptionItem(items[i]);
        }
      }
      SplitJoin(items, ',');
      CleanOptionItems(items);
    }
  }

  predicate SaysYes(input: string)
  {
    Contains(input, "да") || input == "1" || input == "yes"
  }

  predicate SaysNo(input: string)
  {
    Contains(input, "нет") || input == "0" || input == "no"
  }

  /** Whether the question is required, from the trimmed lower-cased answer; yes is tried first. */
  function ParseRequired(input: string): (r: Option<bool>)
    ensures r == Some(true) <==> SaysYes(input)
    ensures r == Some(false) <==> !SaysYes(input) && SaysNo(input)
  {
    if SaysYes(input) then Some(true)
    else if SaysNo(input) then Some(false)
    else None
  }

  /** The two buttons of the prompt, as typed, give the answers they name. */
  lemma {:induction false} OfferedRequiredAnswers(answer: string)
    ensures answer == "Да" ==> ParseRequired(Lower(Trim(answer))) == Some(true)
    ensures answer == "Нет" ==> ParseRequired(Lower(Trim(answer))) == Some(false)
  {
    if answer == "Да" || answer == "Нет" {
      TrimWithoutOuterSpace(answer);
      var input := Lower(answer);
      ContainsSelf(input);
      if answer == "Нет" {
        assert input == "нет";
        NotContains(input, "да", 'д');
      }
    }
  }

  // ---------------------------------------------------------------------
  // Status names
  // ---------------------------------------------------------------------

  /** The `name` of an application status. */
  function ApplicationStatusName(s: ApplicationStatus): string
  {
    match s
    case NEW => "NEW"
    case VIEWED => "VIEWED"
    case CONTACTED => "CONTACTED"
    case ACCEPTED => "ACCEPTED"
    case REJECTED => "REJECTED"
  }

  /** A status's position in the menu of statuses. */
  function ApplicationStatusNumber(s: ApplicationStatus): nat
  {
    match s
    case NEW => 1
    case VIEWED => 2
    case CONTACTED => 3
    case ACCEPTED => 4
    case REJECTED => 5
  }

  /** Whether the text contains one of the words. */
  predicate ContainsAny(input: string, words: seq<string>)
  {
    words != [] && (Contains(input, words[0]) || ContainsAny(input, words[1..]))
  }

  /**
   * The text contains none of the words when each word has a character
   * the text lacks (`marks[i]` for word i).
   */
  lemma {:induction false} ContainsNone(input: string, words: seq<string>, marks: seq<char>)
    requires |marks| == |words|
    requires forall i :: 0 <= i < |words| ==> marks[i] in words[i] && marks[i] !in input
    ensures !ContainsAny(input, words)
  {
    if words != [] {
      NotContains(input, words[0], marks[0]);
      ContainsNone(input, words[1..], marks[1..]);
    }
  }

  /** The words that name an application status. */
  function ApplicationStatusWords(s: ApplicationStatus): seq<string>
  {
    match s
    case NEW => ["new", "новый"]
    case VIEWED => ["viewed", "просмотрен"]
    case CONTACTED => ["contacted", "связал"]
    case ACCEPTED => ["accepted", "принят", "принять"]
    case REJECTED => ["rejected", "отказ", "отклон"]
  }

  /** Whether the trimmed lower-cased answer names this status: its number, or it contains one of its words. */
  predicate NamesApplicationStatus(input: string, s: ApplicationStatus)
  {
    input == ShowNat(ApplicationStatusNumber(s)) || ContainsAny(input, ApplicationStatusWords(s))
  }

  /** The new status of an application: the first one in menu order that the answer names. */
  function ParseApplicationStatus(input: string): (r: Option<ApplicationStatus>)
    ensures r.Some? ==> NamesApplicationStatus(input, r.value)
    ensures r.Some? ==> forall s :: ApplicationStatusNumber(s) < ApplicationStatusNumber(r.value) ==>
                                      !NamesApplicationStatus(input, s)
    ensures r.None? <==> forall s :: !NamesApplicationStatus(input, s)
  {
    if NamesApplicationStatus(input, NEW) then Some(NEW)
    else if NamesApplicationStatus(input, VIEWED) then Some(VIEWED)
    else if NamesApplicationStatus(input, CONTACTED) then Some(CONTACTED)
    else if NamesApplicationStatus(input, ACCEPTED) then Some(ACCEPTED)
    else if NamesApplicationStatus(input, REJECTED) then Some(REJECTED)
    else None
  }

  /** A lower-cased enum name names its own status, being one of its words. */
  lemma {:induction false} NamesOwnApplicationStatus(s: ApplicationStatus)
    ensures Lower(ApplicationStatusName(s)) == ApplicationStatusWords(s)[0]
    ensures NamesApplicationStatus(ApplicationStatusWords(s)[0], s)
  {
    var word := ApplicationStatusWords(s)[0];
    ContainsSelf(word);
    assert ContainsAny(word, ApplicationStatusWords(s));
    LowerApplicationStatusName(s);
  }

  lemma {:induction false} LowerApplicationStatusName(s: ApplicationStatus)
    ensures Lower(ApplicationStatusName(s)) == ApplicationStatusWords(s)[0]
  {
    var name, word := ApplicationStatusName(s), ApplicationStatusWords(s)[0];
    assert |name| == |word| && forall i :: 0 <= i < |name| ==> LowerChar(name[i]) == word[i] by {
      match s
      case NEW =>
      case VIEWED =>
      case CONTACTED =>
      case ACCEPTED =>
      case REJECTED =>
    }
  }

  /** A word is not a status number when it is longer than one character. */
  lemma {:induction false} NotANumber(input: string, n: nat)
    requires 1 <= n <= 9 && |input| > 1
    ensures input != ShowNat(n)
  {
    assert ShowNat(n) == [('0' as int + n) as char];
  }

  /** Each status name the menu shows, typed in any case, selects that status. */
  lemma {:induction false} ApplicationStatusNamesParse(s: ApplicationStatus)
    ensures ParseApplicationStatus(Lower(ApplicationStatusName(s))) == Some(s)
  {
    NamesOwnApplicationStatus(s);
    var input := ApplicationStatusWords(s)[0];
    forall earlier | ApplicationStatusNumber(earlier) < ApplicationStatusNumber(s)
      ensures !NamesApplicationStatus(input, earlier)
    {
      NotANumber(input, ApplicationStatusNumber(earlier));
      ApplicationStatusUnnamed(s, earlier);
    }
  }

  /** The word of a later status contains no word of an earlier one. */
  lemma {:induction false} ApplicationStatusUnnamed(s: ApplicationStatus, earlier: ApplicationStatus)
    requires ApplicationStatusNumber(earlier) < ApplicationStatusNumber(s)
    ensures !ContainsAny(ApplicationStatusWords(s)[0], ApplicationStatusWords(earlier))
  {
    var words := ApplicationStatusWords(earlier);
    match earlier
    case NEW => NewUnnamed(s);
    case VIEWED => ContainsNone(ApplicationStatusWords(s)[0], words, ['v', 'п']);
    case CONTACTED => ContainsNone(ApplicationStatusWords(s)[0], words, ['o', 'с']);
    case ACCEPTED => ContainsNone("rejected", words, ['a', 'п', 'п']);
  }

  /** No later application status word contains a word of NEW. */
  lemma {:induction false} NewUnnamed(s: ApplicationStatus)
    requires s != NEW
    ensures !ContainsAny(ApplicationStatusWords(s)[0], ApplicationStatusWords(NEW))
  {
    var words := ApplicationStatusWords(NEW);
    match s
    case VIEWED => ContainsNone("viewed", words, ['n', 'н']);
    case CONTACTED => ContainsNone("contacted", words, ['w', 'н']);
    case ACCEPTED => ContainsNone("accepted", words, ['n', 'н']);
    case REJECTED => ContainsNone("rejected", words, ['n', 'н']);
  }

  /** The `name` of a vacancy status. */
  function VacancyStatusName(s: VacancyStatus): string
  {
    match s
    case ACTIVE => "ACTIVE"
    case DRAFT => "DRAFT"
    case PAUSED => "PAUSED"
    case CLOSED => "CLOSED"
  }

  /** A vacancy status's position in its menu. */
  function VacancyStatusNumber(s: VacancyStatus): nat
  {
    match s
    case ACTIVE => 1
    case DRAFT => 2
    case PAUSED => 3
    case CLOSED => 4
  }

  /** The words that name a vacancy status. */
  function VacancyStatusWords(s: VacancyStatus): seq<string>
  {
    match s
    case ACTIVE => ["active", "активн"]
    case DRAFT => ["draft", "черновик"]
    case PAUSED => ["paused", "приостановлен"]
    case CLOSED => ["closed", "закрыт"]
  }

  predicate NamesVacancyStatus(input: string, s: VacancyStatus)
  {
    input == ShowNat(VacancyStatusNumber(s)) || ContainsAny(input, VacancyStatusWords(s))
  }

  /** The new status of a vacancy: the first one in menu order that the answer names. */
  function ParseVacancyStatus(input: string): (r: Option<VacancyStatus>)
    ensures r.Some? ==> NamesVacancyStatus(input, r.value)
    ensures r.Some? ==> forall s :: VacancyStatusNumber(s) < VacancyStatusNumber(r.value) ==>
                                      !NamesVacancyStatus(input, s)
    ensures r.None? <==> forall s :: !NamesVacancyStatus(input, s)
  {
    if NamesVacancyStatus(input, ACTIVE) then Some(ACTIVE)
    else if NamesVacancyStatus(input, DRAFT) then Some(DRAFT)
    else if NamesVacancyStatus(input, PAUSED) then Some(PAUSED)
    else if NamesVacancyStatus(input, CLOSED) then Some(CLOSED)
    else None
  }

  lemma {:induction false} NamesOwnVacancyStatus(s: VacancyStatus)
    ensures Lower(VacancyStatusName(s)) == VacancyStatusWords(s)[0]
    ensures NamesVacancyStatus(VacancyStatusWords(s)[0], s)
  {
    var word := VacancyStatusWords(s)[0];
    ContainsSelf(word);
    assert ContainsAny(word, VacancyStatusWords(s));
    LowerVacancyStatusName(s);
  }

  lemma {:induction false} LowerVacancyStatusName(s: VacancyStatus)
    ensures Lower(VacancyStatusName(s)) == VacancyStatusWords(s)[0]
  {
    var name, word := VacancyStatusName(s), VacancyStatusWords(s)[0];
    assert |name| == |word| && forall i :: 0 <= i < |name| ==> LowerChar(name[i]) == word[i] by {
      match s
      case ACTIVE =>
      case DRAFT =>
      case PAUSED =>
      case CLOSED =>
    }
  }

  /** Each vacancy status name, typed in any case, selects that status. */
  lemma {:induction false} VacancyStatusNamesParse(s: VacancyStatus)
    ensures ParseVacancyStatus(Lower(VacancyStatusName(s))) == Some(s)
  {
    NamesOwnVacancyStatus(s);
    var input := VacancyStatusWords(s)[0];
    forall earlier | VacancyStatusNumber(earlier) < VacancyStatusNumber(s)
      ensures !NamesVacancyStatus(input, earlier)
    {
      NotANumber(input, VacancyStatusNumber(earlier));
      VacancyStatusUnnamed(s, earlier);
    }
  }

  lemma {:induction false} VacancyStatusUnnamed(s: VacancyStatus, earlier: VacancyStatus)
    requires VacancyStatusNumber(earlier) < VacancyStatusNumber(s)
    ensures !ContainsAny(VacancyStatusWords(s)[0], VacancyStatusWords(earlier))
  {
    var words := VacancyStatusWords(earlier);
    match earlier
    case ACTIVE => ActiveUnnamed(s);
    case DRAFT =>
      if s == CLOSED {
        ContainsNone("closed", words, ['a', 'ч']);
      } else {
        ContainsNone("paused", words, ['f', 'ч']);
      }
    case PAUSED => ContainsNone("closed", words, ['p', 'п']);
  }

  /** No later vacancy status word contains a word of ACTIVE. */
  lemma {:induction false} ActiveUnnamed(s: VacancyStatus)
    requires s != ACTIVE
    ensures !ContainsAny(VacancyStatusWords(s)[0], VacancyStatusWords(ACTIVE))
  {
    var words := VacancyStatusWords(ACTIVE);
    match s
    case DRAFT => ContainsNone("draft", words, ['c', 'а']);
    case PAUSED => ContainsNone("paused", words, ['c', 'а']);
    case CLOSED => ContainsNone("closed", words, ['a', 'а']);
  }

  // ---------------------------------------------------------------------
  // Campaign schedules
  // ---------------------------------------------------------------------

  /** The schedule menu's entries. */
  datatype ScheduleChoice = EveryHour | EveryDay | EveryNHours | ScheduleOff | EveryQuarterHour

  /** A digit followed by the keycap marks, as the emoji keyboard sends it. */
  function Keycap(digit: char): string
  {
    [digit, '\U{FE0F}', '\U{20E3}']
  }

  /** The menu entry named by the untrimmed answer: its digit, plain or as a keycap emoji. */
  function ParseScheduleChoice(text: string): (c: Option<ScheduleChoice>)
    ensures c == Some(EveryHour) <==> text == "1" || text == Keycap('1')
    ensures c == Some(EveryDay) <==> text == "2" || text == Keycap('2')
    ensures c == Some(EveryNHours) <==> text == "3" || text == Keycap('3')
    ensures c == Some(ScheduleOff) <==> text == "4" || text == Keycap('4')
    ensures c == Some(EveryQuarterHour) <==> text == "5" || text == Keycap('5')
  {
    if text == "1" || text == Keycap('1') then Some(EveryHour)
    else if text == "2" || text == Keycap('2') then Some(EveryDay)
    else if text == "3" || text == Keycap('3') then Some(EveryNHours)
    else if text == "4" || text == Keycap('4') then Some(ScheduleOff)
    else if text == "5" || text == Keycap('5') then Some(EveryQuarterHour)
    else None
  }

  /** The values each schedule type accepts: a minute, an hour of the day, or 1 to 168 hours. */
  predicate InScheduleRange(scheduleType: string, value: int)
  {
    (scheduleType == "HOURLY" && 0 <= value <= 59)
    || (scheduleType == "DAILY" && 0 <= value <= 23)
    || (scheduleType == "CUSTOM" && 1 <= value <= 168)
  }

  predicate KnownScheduleType(scheduleType: string)
  {
    scheduleType == "HOURLY" || scheduleType == "DAILY" || scheduleType == "CUSTOM"
  }

  datatype ScheduleSetting =
    | Scheduled(next: Minutes)
    | OutOfRangeValue
    | UnknownScheduleType

  /**
   * The first send of a schedule entered at `now`: the next such minute of
   * the hour, the next such hour of the day, or `value` hours from now.
   */
  function ScheduleFor(scheduleType: string, value: int, now: Minutes): (r: ScheduleSetting)
    ensures r.Scheduled? <==> InScheduleRange(scheduleType, value)
    ensures r.UnknownScheduleType? <==> !KnownScheduleType(scheduleType)
    ensures r.Scheduled? ==> now < r.next && Next(scheduleType, Some(value), now) == At(r.next)
  {
    match scheduleType
    case "HOURLY" => if 0 <= value <= 59 then Scheduled(NextAtMinute(now, value)) else OutOfRangeValue
    case "DAILY" => if 0 <= value <= 23 then Scheduled(NextAtHour(now, value)) else OutOfRangeValue
    case "CUSTOM" => if 1 <= value <= 168 then Scheduled(now + value * MINUTES_PER_HOUR) else OutOfRangeValue
    case _ => UnknownScheduleType
  }

  /** How far apart the sends of a schedule are. */
  function Period(scheduleType: string, value: int): int
  {
    if scheduleType == "HOURLY" then MINUTES_PER_HOUR
    else if scheduleType == "DAILY" then MINUTES_PER_DAY
    else value * MINUTES_PER_HOUR
  }

  /**
   * Once the first send is made, the scheduler moves the campaign on by
   * exactly one period: the schedule entered in the dialog is the grid the
   * scheduler keeps.
   */
  lemma {:induction false} ScheduleKeepsItsGrid(scheduleType: string, value: int, now: Minutes)
    requires InScheduleRange(scheduleType, value)
    ensures var first := ScheduleFor(scheduleType, value, now).next;
            Next(scheduleType, Some(value), first) == At(first + Period(scheduleType, value))
  {
    var first := ScheduleFor(scheduleType, value, now).next;
    if scheduleType == "HOURLY" {
      HourlyGrid(first, value);
    } else if scheduleType == "DAILY" {
      DailyGrid(first, value);
    }
  }

  /** From a send at the chosen minute of the hour, the next one is an hour later. */
  lemma {:induction false} HourlyGrid(first: Minutes, minute: int)
    requires 0 <= minute < MINUTES_PER_HOUR && first % MINUTES_PER_HOUR == minute
    ensures NextAtMinute(first, minute) == first + MINUTES_PER_HOUR
  {
    var t := NextAtMinute(first, minute);
    var start := first - minute;
    if t < first + MINUTES_PER_HOUR {
      if t < start + MINUTES_PER_HOUR {
        OffsetInHour(t, start);
      } else {
        OffsetInHour(t, start + MINUTES_PER_HOUR);
      }
      assert false;
    }
  }

  /** From a send at the chosen hour of the day, the next one is a day later. */
  lemma {:induction false} DailyGrid(first: Minutes, hour: int)
    requires 0 <= hour < 24 && first % MINUTES_PER_DAY == hour * MINUTES_PER_HOUR
    ensures NextAtHour(first, hour) == first + MINUTES_PER_DAY
  {
    var t := NextAtHour(first, hour);
    var start := first - hour * MINUTES_PER_HOUR;
    if t < first + MINUTES_PER_DAY {
      if t < start + MINUTES_PER_DAY {
        OffsetInDay(t, start);
      } else {
        OffsetInDay(t, start + MINUTES_PER_DAY);
      }
      assert false;
    }
  }
}
