/**
 * The application and answer tables. An applicant applies to a vacancy at
 * most once (the schema's unique constraint on vacancy and user), answers
 * each question at most once (unique on application and question), and
 * every answer keeps a copy of the question as it was when answered.
 */
module ApplicationDb {
  import opened Common
  import opened Domain

  const DUPLICATE_APPLICATION: string := "uk_vacancy_user_application"
  const DUPLICATE_ANSWER: string := "uk_application_question_answer"

  ghost predicate UniqueApplicants(applications: map<int, Application>)
  {
    forall k1, k2 ::
      (k1 in applications && k2 in applications
       && applications[k1].vacancyId == applications[k2].vacancyId
       && applications[k1].userId == applications[k2].userId) ==> k1 == k2
  }

  ghost predicate UniqueAnswers(answers: map<int, Answer>)
  {
    forall k1, k2 ::
      (k1 in answers && k2 in answers
       && answers[k1].applicationId == answers[k2].applicationId
       && answers[k1].questionId == answers[k2].questionId) ==> k1 == k2
  }

  class ApplicationDbService {
    var applications: map<int, Application>
    var nextApplicationId: int
    var answers: map<int, Answer>
    var nextAnswerId: int

    ghost predicate Valid()
      reads this
    {
      1 <= nextApplicationId && IdsBelow(applications, nextApplicationId)
      && (forall k :: k in applications ==> applications[k].id == k)
      && UniqueApplicants(applications)
      && 1 <= nextAnswerId && IdsBelow(answers, nextAnswerId)
      && (forall k :: k in answers ==> answers[k].id == k)
      && UniqueAnswers(answers)
    }

    constructor()
      ensures Valid() && applications == map[] && answers == map[]
    {
      applications := map[];
      nextApplicationId := 1;
      answers := map[];
      nextAnswerId := 1;
    }

    function FindById(id: int): (r: Option<Application>)
      reads this
      ensures r.Some? <==> id in applications
      ensures r.Some? ==> r.value == applications[id]
    {
      if id in applications then Some(applications[id]) else None
    }

    /** findByVacancyId: every application to this vacancy. */
    function FindByVacancyId(vacancyId: int): (r: seq<Application>)
      reads this
      requires Valid()
      ensures forall a :: a in r <==> a in applications.Values && a.vacancyId == vacancyId
    {
      RowsAreValues(applications, nextApplicationId);
      Filter(Rows(applications, nextApplicationId), (a: Application) => a.vacancyId == vacancyId)
    }

    /** findByVacancyIdAndStatus: the applications to this vacancy in this status. */
    function FindByVacancyIdAndStatus(vacancyId: int, status: ApplicationStatus): (r: seq<Application>)
      reads this
      requires Valid()
      ensures forall a :: a in r <==> a in applications.Values && a.vacancyId == vacancyId && a.status == status
    {
      RowsAreValues(applications, nextApplicationId);
      Filter(Rows(applications, nextApplicationId),
             (a: Application) => a.vacancyId == vacancyId && a.status == status)
    }

    /** findByVacancyIdAndUserId: this user's application to this vacancy, the only one there can be. */
    function FindByVacancyIdAndUserId(vacancyId: int, userId: int): (r: Option<Application>)
      reads this
      requires Valid()
      ensures r.None? <==> forall k :: k in applications ==>
                             applications[k].vacancyId != vacancyId || applications[k].userId != userId
      ensures r.Some? ==> r.value.id in applications && applications[r.value.id] == r.value
                          && r.value.vacancyId == vacancyId && r.value.userId == userId
      ensures r.Some? ==> forall k :: (k in applications && applications[k].vacancyId == vacancyId
                                       && applications[k].userId == userId) ==> k == r.value.id
    {
      RowsAreValues(applications, nextApplicationId);
      var hits := Filter(Rows(applications, nextApplicationId),
                         (a: Application) => a.vacancyId == vacancyId && a.userId == userId);
      if hits == [] then
        assert forall k :: k in applications ==> applications[k] in applications.Values;
        None
      else
        assert hits[0] in hits;
        Some(hits[0])
    }

    /** existsByVacancyIdAndUserId: whether this user has applied to this vacancy. */
    function ExistsByVacancyIdAndUserId(vacancyId: int, userId: int): (b: bool)
      reads this
      requires Valid()
      ensures b <==> exists k :: k in applications
                       && applications[k].vacancyId == vacancyId && applications[k].userId == userId
    {
      FindByVacancyIdAndUserId(vacancyId, userId).Some?
    }

    /**
     * createApplication: a NEW application without notes. A second
     * application of the same user to the same vacancy violates the unique
     * constraint and nothing is written.
     */
    method CreateApplication(vacancyId: int, userId: int, now: Minutes) returns (r: Result<Application>)
      requires Valid()
      modifies this
      ensures Valid() && answers == old(answers) && nextAnswerId == old(nextAnswerId)
      ensures r.Ok? <==> !old(ExistsByVacancyIdAndUserId(vacancyId, userId))
      ensures r.Fail? ==> r.error == DUPLICATE_APPLICATION
                          && applications == old(applications) && nextApplicationId == old(nextApplicationId)
      ensures r.Ok? ==> r.value == Application(old(nextApplicationId), vacancyId, userId, NEW, None, now, now)
                        && old(nextApplicationId) !in old(applications)
                        && applications == old(applications)[old(nextApplicationId) := r.value]
                        && nextApplicationId == old(nextApplicationId) + 1
      ensures ExistsByVacancyIdAndUserId(vacancyId, userId)
    {
      if FindByVacancyIdAndUserId(vacancyId, userId).Some? {
        return Fail(DUPLICATE_APPLICATION);
      }
      var a := Application(nextApplicationId, vacancyId, userId, NEW, None, now, now);
      applications := applications[nextApplicationId := a];
      nextApplicationId := nextApplicationId + 1;
      r := Ok(a);
    }

    /** findByApplicationIdAndQuestionId: whether this question of this application is answered. */
    function AnswerFor(applicationId: int, questionId: int): (r: Option<Answer>)
      reads this
      requires Valid()
      ensures r.None? <==> forall k :: k in answers ==>
                             answers[k].applicationId != applicationId || answers[k].questionId != questionId
      ensures r.Some? ==> r.value.id in answers && answers[r.value.id] == r.value
                          && r.value.applicationId == applicationId && r.value.questionId == questionId
    {
      RowsAreValues(answers, nextAnswerId);
      var hits := Filter(Rows(answers, nextAnswerId),
                         (a: Answer) => a.applicationId == applicationId && a.questionId == questionId);
      if hits == [] then
        assert forall k :: k in answers ==> answers[k] in answers.Values;
        None
      else
        assert hits[0] in hits;
        Some(hits[0])
    }

    /**
     * saveAnswer: the answer together with the question's text, type and
     * position as they are now, so that later edits of the question do not
     * change what the applicant answered. A second answer to the same
     * question of the same application violates the unique constraint.
     */
    method SaveAnswer(applicationId: int, questionId: int, answerText: string, questionText: string,
                      questionType: string, questionOrder: int, now: Minutes)
      returns (r: Result<Answer>)
      requires Valid()
      modifies this
      ensures Valid() && applications == old(applications) && nextApplicationId == old(nextApplicationId)
      ensures r.Ok? <==> old(AnswerFor(applicationId, questionId)).None?
      ensures r.Fail? ==> r.error == DUPLICATE_ANSWER && answers == old(answers) && nextAnswerId == old(nextAnswerId)
      ensures r.Ok? ==> r.value == Answer(old(nextAnswerId), applicationId, questionId, answerText,
                                          questionText, questionType, questionOrder, now)
                        && old(nextAnswerId) !in old(answers)
                        && answers == old(answers)[old(nextAnswerId) := r.value]
                        && nextAnswerId == old(nextAnswerId) + 1
    {
      if AnswerFor(applicationId, questionId).Some? {
        return Fail(DUPLICATE_ANSWER);
      }
      var a := Answer(nextAnswerId, applicationId, questionId, answerText, questionText, questionType, questionOrder, now);
      answers := answers[nextAnswerId := a];
      nextAnswerId := nextAnswerId + 1;
      r := Ok(a);
    }

    /** getAnswersByApplicationId: every answer of this application. */
    function GetAnswersByApplicationId(applicationId: int): (r: seq<Answer>)
      reads this
      requires Valid()
      ensures forall a :: a in r <==> a in answers.Values && a.applicationId == applicationId
    {
      RowsAreValues(answers, nextAnswerId);
      Filter(Rows(answers, nextAnswerId), (a: Answer) => a.applicationId == applicationId)
    }

    /** updateStatus: nothing for an unknown id; otherwise only the status and the update time change. */
    method UpdateStatus(applicationId: int, newStatus: ApplicationStatus, now: Minutes) returns (r: Option<Application>)
      requires Valid()
      modifies this
      ensures Valid() && answers == old(answers) && nextApplicationId == old(nextApplicationId)
      ensures applicationId !in old(applications) ==> r.None? && applications == old(applications)
      ensures applicationId in old(applications) ==>
                r == Some(old(applications)[applicationId].(status := newStatus, updatedAt := now))
                && applications == old(applications)[applicationId := r.value]
    {
      if applicationId !in applications {
        return None;
      }
      var a := applications[applicationId].(status := newStatus, updatedAt := now);
      applications := applications[applicationId := a];
      r := Some(a);
    }

    /** addNotes: nothing for an unknown id; otherwise the notes are replaced and the update time set. */
    method AddNotes(applicationId: int, notes: string, now: Minutes) returns (r: Option<Application>)
      requires Valid()
      modifies this
      ensures Valid() && answers == old(answers) && nextApplicationId == old(nextApplicationId)
      ensures applicationId !in old(applications) ==> r.None? && applications == old(applications)
      ensures applicationId in old(applications) ==>
                r == Some(old(applications)[applicationId].(notes := Some(notes), updatedAt := now))
                && applications == old(applications)[applicationId := r.value]
    {
      if applicationId !in applications {
        return None;
      }
      var a := applications[applicationId].(notes := Some(notes), updatedAt := now);
      applications := applications[applicationId := a];
      r := Some(a);
    }
  }
}
