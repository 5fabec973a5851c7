/**
 * The question table: the three default questions, custom questions
 * appended after the highest order index, CHOICE options stored as a JSON
 * array of strings, single-field updates and the per-vacancy count.
 */
module QuestionDb {
  import opened Common
  import opened Domain
  import opened JsonStrings

  const NAME_QUESTION: string := "Как вас зовут?"
  const PHONE_QUESTION: string := "Ваш номер телефона"
  const AGE_QUESTION: string := "Сколько вам лет?"

  /** The question table after createDefaultQuestions stored the three defaults of a vacancy from id `n` on. */
  function DefaultsAdded(questions: map<int, Question>, n: int, vacancyId: int, now: Minutes): map<int, Question>
  {
    questions[n := Question(n, vacancyId, NAME_QUESTION, TEXT, true, 1, None, now)]
             [n + 1 := Question(n + 1, vacancyId, PHONE_QUESTION, PHONE, true, 2, None, now)]
             [n + 2 := Question(n + 2, vacancyId, AGE_QUESTION, NUMBER, false, 3, None, now)]
  }

  // ---------------------------------------------------------------------
  // Order index
  // ---------------------------------------------------------------------

  /** `maxOfOrNull { it.orderIndex } ?: 0`. */
  function MaxOrderIndex(qs: seq<Question>): (m: int)
    ensures qs == [] ==> m == 0
    ensures forall i :: 0 <= i < |qs| ==> qs[i].orderIndex <= m
    ensures qs != [] ==> exists i :: 0 <= i < |qs| && qs[i].orderIndex == m
  {
    if qs == [] then 0
    else if |qs| == 1 then qs[0].orderIndex
    else
      var rest := MaxOrderIndex(qs[1..]);
      assert forall i :: 1 <= i < |qs| ==> qs[i] == qs[1..][i - 1];
      if qs[0].orderIndex >= rest then qs[0].orderIndex else rest
  }

  /** The order index a new custom question gets: above every existing one, 1 for the first. */
  function NextOrderIndex(qs: seq<Question>): (k: int)
    ensures forall i :: 0 <= i < |qs| ==> qs[i].orderIndex < k
    ensures qs == [] ==> k == 1
  {
    MaxOrderIndex(qs) + 1
  }

  predicate SortedByOrder(qs: seq<Question>)
  {
    forall i, j :: 0 <= i < j < |qs| ==> qs[i].orderIndex <= qs[j].orderIndex
  }

  /** Inserts before the first element with a larger order index. */
  function InsertByOrder(q: Question, sorted: seq<Question>): seq<Question>
  {
    if sorted == [] then [q]
    else if q.orderIndex <= sorted[0].orderIndex then [q] + sorted
    else [sorted[0]] + InsertByOrder(q, sorted[1..])
  }

  lemma {:induction false} InsertByOrderElements(q: Question, sorted: seq<Question>)
    ensures multiset(InsertByOrder(q, sorted)) == multiset(sorted) + multiset{q}
    decreases |sorted|
  {
    if sorted != [] && q.orderIndex > sorted[0].orderIndex {
      InsertByOrderElements(q, sorted[1..]);
      assert sorted == [sorted[0]] + sorted[1..];
    }
  }

  lemma {:induction false} InsertByOrderSorted(q: Question, sorted: seq<Question>)
    requires SortedByOrder(sorted)
    ensures SortedByOrder(InsertByOrder(q, sorted))
    decreases |sorted|
  {
    if sorted != [] && q.orderIndex > sorted[0].orderIndex {
      var rest := InsertByOrder(q, sorted[1..]);
      InsertByOrderSorted(q, sorted[1..]);
      InsertByOrderElements(q, sorted[1..]);
      forall x | x in rest
        ensures sorted[0].orderIndex <= x.orderIndex
      {
        assert x in multiset(rest);
        if x != q {
          assert x in multiset(sorted[1..]);
        }
      }
      var r := [sorted[0]] + rest;
      forall i, j | 0 <= i < j < |r|
        ensures r[i].orderIndex <= r[j].orderIndex
      {
        if i > 0 {
          assert r[i] == rest[i - 1] && r[j] == rest[j - 1];
        } else {
          assert r[j] in rest;
        }
      }
    }
  }

  /** ORDER BY order_index: sorted, and a permutation of its input. */
  function SortByOrder(qs: seq<Question>): (r: seq<Question>)
    ensures SortedByOrder(r)
    ensures multiset(r) == multiset(qs)
  {
    if qs == [] then []
    else
      assert qs == [qs[0]] + qs[1..];
      var rest := SortByOrder(qs[1..]);
      InsertByOrderSorted(qs[0], rest);
      InsertByOrderElements(qs[0], rest);
      InsertByOrder(qs[0], rest)
  }

  // ---------------------------------------------------------------------
  // Options
  // ---------------------------------------------------------------------

  /** The options column a new question gets: JSON only for CHOICE with options given. */
  function OptionsColumn(qtype: QuestionType, options: Option<seq<string>>): (c: Option<string>)
    ensures c.Some? <==> qtype == CHOICE && options.Some?
    ensures c.Some? ==> c == Some(EncodeArray(options.value))
  {
    if qtype == CHOICE && options.Some? then Some(EncodeArray(options.value)) else None
  }

  /** parseOptions: nothing for an absent or blank column or one that is not a string array. */
  function ParseOptions(json: Option<string>): (r: Option<seq<string>>)
    ensures json.None? ==> r.None?
    ensures json.Some? && IsBlank(json.value) ==> r.None?
  {
    if json.None? || IsBlank(json.value) then None else ParseArray(json.value)
  }

  /** The options a CHOICE question was created with read back unchanged. */
  lemma {:induction false} OptionsRoundTrip(options: seq<string>)
    ensures ParseOptions(OptionsColumn(CHOICE, Some(options))) == Some(options)
  {
    var json := EncodeArray(options);
    assert !IsWhitespace(json[0]);
    ParseEncode(options);
  }

  class QuestionDbService {
    var questions: map<int, Question>
    var nextId: int

    ghost predicate Valid()
      reads this
    {
      1 <= nextId && IdsBelow(questions, nextId)
      && (forall k :: k in questions ==> questions[k].id == k)
    }

    constructor()
      ensures Valid() && questions == map[]
    {
      questions := map[];
      nextId := 1;
    }

    function FindById(id: int): (r: Option<Question>)
      reads this
      ensures r.Some? <==> id in questions
      ensures r.Some? ==> r.value == questions[id]
    {
      if id in questions then Some(questions[id]) else None
    }

    /** findByVacancyId: this vacancy's questions, in no particular order. */
    function Unordered(vacancyId: int): (r: seq<Question>)
      reads this
      requires Valid()
      ensures forall q :: q in r <==> q in questions.Values && q.vacancyId == vacancyId
    {
      RowsAreValues(questions, nextId);
      Filter(Rows(questions, nextId), (q: Question) => q.vacancyId == vacancyId)
    }

    /** findByVacancyIdOrderByOrderIndex: this vacancy's questions by ascending order index. */
    function FindByVacancyId(vacancyId: int): (r: seq<Question>)
      reads this
      requires Valid()
      ensures SortedByOrder(r)
      ensures multiset(r) == multiset(Unordered(vacancyId))
      ensures forall q :: q in r <==> q in questions.Values && q.vacancyId == vacancyId
    {
      var r := SortByOrder(Unordered(vacancyId));
      assert forall q :: q in r <==> q in multiset(r);
      r
    }

    /** countByVacancyId: the number of questions of this vacancy. */
    function CountByVacancyId(vacancyId: int): (n: nat)
      reads this
      requires Valid()
      ensures n == |set k | k in questions && questions[k].vacancyId == vacancyId|
    {
      var r := FindByVacancyId(vacancyId);
      var p := (q: Question) => q.vacancyId == vacancyId;
      assert |r| == |Unordered(vacancyId)| by {
        assert |r| == |multiset(r)|;
      }
      CountRows(questions, nextId, p);
      assert IdsWhere(questions, nextId, p) == set k | k in questions && questions[k].vacancyId == vacancyId;
      |r|
    }

    method Insert(vacancyId: int, text: string, qtype: QuestionType, isRequired: bool, orderIndex: int,
                  options: Option<string>, now: Minutes)
      returns (q: Question)
      requires Valid()
      modifies this
      ensures Valid()
      ensures q == Question(old(nextId), vacancyId, text, qtype, isRequired, orderIndex, options, now)
      ensures questions == old(questions)[old(nextId) := q] && old(nextId) !in old(questions)
      ensures nextId == old(nextId) + 1
    {
      q := Question(nextId, vacancyId, text, qtype, isRequired, orderIndex, options, now);
      questions := questions[nextId := q];
      nextId := nextId + 1;
    }

    /**
     * createDefaultQuestions: the name (TEXT, required, order 1), the
     * phone (PHONE, required, order 2) and the age (NUMBER, optional,
     * order 3), in that order.
     */
    method CreateDefaultQuestions(vacancyId: int, now: Minutes) returns (created: seq<Question>)
      requires Valid()
      modifies this
      ensures Valid()
      ensures |created| == 3
      ensures forall i :: 0 <= i < 3 ==>
                created[i].vacancyId == vacancyId && created[i].orderIndex == i + 1 && created[i].options.None?
                && created[i].id == old(nextId) + i && old(nextId) + i !in old(questions)
      ensures created[0].text == NAME_QUESTION && created[0].qtype == TEXT && created[0].isRequired
      ensures created[1].text == PHONE_QUESTION && created[1].qtype == PHONE && created[1].isRequired
      ensures created[2].text == AGE_QUESTION && created[2].qtype == NUMBER && !created[2].isRequired
      ensures questions == old(questions)[old(nextId) := created[0]][old(nextId) + 1 := created[1]]
                                         [old(nextId) + 2 := created[2]]
      ensures nextId == old(nextId) + 3
      ensures questions == DefaultsAdded(old(questions), old(nextId), vacancyId, now)
    {
      var name := Insert(vacancyId, NAME_QUESTION, TEXT, true, 1, None, now);
      var phone := Insert(vacancyId, PHONE_QUESTION, PHONE, true, 2, None, now);
      var age := Insert(vacancyId, AGE_QUESTION, NUMBER, false, 3, None, now);
      created := [name, phone, age];
    }

    /**
     * createCustomQuestion: ordered after every existing question of the
     * vacancy; options are kept, as JSON, only for a CHOICE question.
     */
    method CreateCustomQuestion(vacancyId: int, text: string, qtype: QuestionType, isRequired: bool,
                                options: Option<seq<string>>, now: Minutes)
      returns (q: Question)
      requires Valid()
      modifies this
      ensures Valid()
      ensures questions == old(questions)[old(nextId) := q] && old(nextId) !in old(questions)
      ensures q.id == old(nextId) && q.vacancyId == vacancyId && q.text == text
      ensures q.qtype == qtype && q.isRequired == isRequired
      ensures forall k :: k in old(questions) && old(questions)[k].vacancyId == vacancyId ==>
                old(questions)[k].orderIndex < q.orderIndex
      ensures (forall k :: k in old(questions) ==> old(questions)[k].vacancyId != vacancyId) ==> q.orderIndex == 1
      ensures q.options == OptionsColumn(qtype, options)
      ensures qtype == CHOICE && options.Some? ==> ParseOptions(q.options) == options
    {
      var existing := Unordered(vacancyId);
      forall k | k in questions && questions[k].vacancyId == vacancyId
        ensures questions[k] in existing
      {
        assert questions[k] in questions.Values;
      }
      if qtype == CHOICE && options.Some? {
        OptionsRoundTrip(options.value);
      }
      if existing != [] {
        assert existing[0] in existing && existing[0] in questions.Values;
      }
      q := Insert(vacancyId, text, qtype, isRequired, NextOrderIndex(existing), OptionsColumn(qtype, options), now);
    }

    /** deleteByVacancyId: every question of this vacancy is gone, and only those. */
    method DeleteByVacancyId(vacancyId: int)
      requires Valid()
      modifies this
      ensures Valid() && nextId == old(nextId)
      ensures forall k :: k in questions <==> k in old(questions) && old(questions)[k].vacancyId != vacancyId
      ensures forall k :: k in questions ==> questions[k] == old(questions)[k]
    {
      questions := map k | k in questions && questions[k].vacancyId != vacancyId :: questions[k];
    }

    /** deleteById: the row is gone, whether or not it existed. */
    method DeleteById(id: int)
      requires Valid()
      modifies this
      ensures Valid() && nextId == old(nextId)
      ensures questions == old(questions) - {id}
    {
      questions := questions - {id};
    }

    /** updateQuestionText: only the text changes. */
    method UpdateQuestionText(id: int, newText: string) returns (r: Option<Question>)
      requires Valid()
      modifies this
      ensures Valid() && nextId == old(nextId)
      ensures id !in old(questions) ==> r.None? && questions == old(questions)
      ensures id in old(questions) ==>
                r == Some(old(questions)[id].(text := newText)) && questions == old(questions)[id := r.value]
    {
      if id !in questions {
        return None;
      }
      var q := questions[id].(text := newText);
      questions := questions[id := q];
      r := Some(q);
    }

    /** updateQuestionRequired: only the required flag changes. */
    method UpdateQuestionRequired(id: int, isRequired: bool) returns (r: Option<Question>)
      requires Valid()
      modifies this
      ensures Valid() && nextId == old(nextId)
      ensures id !in old(questions) ==> r.None? && questions == old(questions)
      ensures id in old(questions) ==>
                r == Some(old(questions)[id].(isRequired := isRequired)) && questions == old(questions)[id := r.value]
    {
      if id !in questions {
        return None;
      }
      var q := questions[id].(isRequired := isRequired);
      questions := questions[id := q];
      r := Some(q);
    }

    /**
     * updateQuestionOptions: nothing for an unknown id or a question that
     * is not CHOICE; otherwise the options are replaced and read back as given.
     */
    method UpdateQuestionOptions(id: int, options: seq<string>) returns (r: Option<Question>)
      requires Valid()
      modifies this
      ensures Valid() && nextId == old(nextId)
      ensures (id !in old(questions) || old(questions)[id].qtype != CHOICE) ==>
                r.None? && questions == old(questions)
      ensures id in old(questions) && old(questions)[id].qtype == CHOICE ==>
                r == Some(old(questions)[id].(options := Some(EncodeArray(options))))
                && questions == old(questions)[id := r.value]
                && ParseOptions(r.value.options) == Some(options)
    {
      if id !in questions || questions[id].qtype != CHOICE {
        return None;
      }
      OptionsRoundTrip(options);
      var q := questions[id].(options := Some(EncodeArray(options)));
      questions := questions[id := q];
      r := Some(q);
    }
  }
}
