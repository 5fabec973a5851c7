/**
 * The vacancy table: creation under a fresh six-character code, the
 * publication rules for publishedAt, single-field updates and deletion.
 */
module VacancyDb {
  import opened Common
  import opened Domain

  const LETTERS: string := "ABCDEFGHIJKLMNOPQRSTUVWXYZ"
  const DIGITS: string := "0123456789"

  /** generateUniqueCode gives up on this attempt, before checking its candidate. */
  const MAX_CODE_ATTEMPTS: nat := 100

  const CODE_EXHAUSTED: string := "Не удалось сгенерировать уникальный код после 100 попыток"

  /** Three letters A-Z followed by three digits 0-9. */
  predicate IsVacancyCode(s: string)
  {
    |s| == 6
    && IsAsciiUpper(s[0]) && IsAsciiUpper(s[1]) && IsAsciiUpper(s[2])
    && IsAsciiDigit(s[3]) && IsAsciiDigit(s[4]) && IsAsciiDigit(s[5])
  }

  /**
   * The candidate code of attempt `k`. `draw(k, j)` stands for the j-th
   * random pick of that attempt (`chars.random()` for j < 3, a random
   * digit after), so every code the generator can produce is reachable.
   */
  function Candidate(draw: (nat, nat) -> nat, k: nat): (code: string)
    ensures IsVacancyCode(code)
  {
    assert forall i :: 0 <= i < |LETTERS| ==> IsAsciiUpper(LETTERS[i]);
    assert forall i :: 0 <= i < |DIGITS| ==> IsAsciiDigit(DIGITS[i]);
    [LETTERS[draw(k, 0) % 26], LETTERS[draw(k, 1) % 26], LETTERS[draw(k, 2) % 26],
     DIGITS[draw(k, 3) % 10], DIGITS[draw(k, 4) % 10], DIGITS[draw(k, 5) % 10]]
  }

  /** existsByCode over the table. */
  predicate CodeTaken(vacancies: map<int, Vacancy>, code: string)
  {
    exists k :: k in vacancies && vacancies[k].code == code
  }

  /** The unique constraint on the code column. */
  ghost predicate UniqueCodes(vacancies: map<int, Vacancy>)
  {
    forall a, b :: a in vacancies && b in vacancies && vacancies[a].code == vacancies[b].code ==> a == b
  }

  /** The vacancy after changeStatus: publishedAt is set on a first move to ACTIVE and never cleared. */
  function StatusChanged(v: Vacancy, newStatus: VacancyStatus, now: Minutes): (r: Vacancy)
    ensures r.status == newStatus && r.updatedAt == now
    ensures v.publishedAt.Some? ==> r.publishedAt == v.publishedAt
    ensures v.publishedAt.None? ==> (r.publishedAt.Some? <==> newStatus == ACTIVE)
    ensures r.publishedAt.Some? ==> r.publishedAt == v.publishedAt || r.publishedAt == Some(now)
    ensures r.(status := v.status, updatedAt := v.updatedAt, publishedAt := v.publishedAt) == v
  {
    var published := if newStatus == ACTIVE && v.publishedAt.None? then Some(now) else v.publishedAt;
    v.(status := newStatus, updatedAt := now, publishedAt := published)
  }

  /** Changing status twice to the same status at a later instant keeps the first publication time. */
  lemma {:induction false} StatusChangeKeepsFirstPublication(v: Vacancy, s: VacancyStatus, t1: Minutes, t2: Minutes)
    ensures StatusChanged(StatusChanged(v, s, t1), s, t2).publishedAt == StatusChanged(v, s, t1).publishedAt
  {
  }

  class VacancyDbService {
    var vacancies: map<int, Vacancy>
    var nextId: int

    ghost predicate Valid()
      reads this
    {
      1 <= nextId && IdsBelow(vacancies, nextId)
      && (forall k :: k in vacancies ==> vacancies[k].id == k)
      && UniqueCodes(vacancies)
    }

    constructor()
      ensures Valid() && vacancies == map[]
    {
      vacancies := map[];
      nextId := 1;
    }

    function FindById(id: int): (r: Option<Vacancy>)
      reads this
      ensures r.Some? <==> id in vacancies
      ensures r.Some? ==> r.value == vacancies[id]
    {
      if id in vacancies then Some(vacancies[id]) else None
    }

    /** findByCode: the vacancy with this code, if any (at most one exists). */
    function FindByCode(code: string): (r: Option<Vacancy>)
      reads this
      requires Valid()
      ensures r.None? <==> !CodeTaken(vacancies, code)
      ensures r.Some? ==> r.value.id in vacancies && vacancies[r.value.id] == r.value && r.value.code == code
    {
      RowsAreValues(vacancies, nextId);
      var hits := Filter(Rows(vacancies, nextId), (v: Vacancy) => v.code == code);
      if hits == [] then
        assert forall k :: k in vacancies ==> vacancies[k] in vacancies.Values;
        None
      else
        assert hits[0] in hits;
        Some(hits[0])
    }

    /**
     * generateUniqueCode: draws candidates until one is free. Attempt 100
     * throws before its candidate is looked up, so only the first 99
     * candidates are ever checked.
     */
    method GenerateUniqueCode(draw: (nat, nat) -> nat) returns (r: Result<string>)
      ensures r.Ok? ==> IsVacancyCode(r.value) && !CodeTaken(vacancies, r.value)
      ensures r.Ok? ==> exists k :: 1 <= k < MAX_CODE_ATTEMPTS && r.value == Candidate(draw, k)
                                    && forall j :: 1 <= j < k ==> CodeTaken(vacancies, Candidate(draw, j))
      ensures r.Fail? <==> forall k :: 1 <= k < MAX_CODE_ATTEMPTS ==> CodeTaken(vacancies, Candidate(draw, k))
      ensures r.Fail? ==> r.error == CODE_EXHAUSTED
    {
      var attempts := 0;
      while true
        invariant 0 <= attempts < MAX_CODE_ATTEMPTS
        invariant forall j :: 1 <= j <= attempts ==> CodeTaken(vacancies, Candidate(draw, j))
        decreases MAX_CODE_ATTEMPTS - attempts
      {
        var code := Candidate(draw, attempts + 1);
        attempts := attempts + 1;
        if attempts >= MAX_CODE_ATTEMPTS {
          return Fail(CODE_EXHAUSTED);
        }
        if !CodeTaken(vacancies, code) {
          return Ok(code);
        }
      }
    }

    /**
     * createVacancy: a fresh code, the given status (DRAFT is the callers'
     * default) and publishedAt set exactly when the status is ACTIVE. A
     * failed code generation throws and inserts nothing.
     */
    method CreateVacancy(businessId: int, title: string, description: string, location: Option<string>,
                         salary: Option<string>, status: VacancyStatus, draw: (nat, nat) -> nat, now: Minutes)
      returns (r: Result<Vacancy>)
      requires Valid()
      modifies this
      ensures Valid()
      ensures r.Fail? ==> vacancies == old(vacancies)
      ensures r.Ok? ==>
                vacancies == old(vacancies)[old(nextId) := r.value] && old(nextId) !in old(vacancies)
                && r.value.id == old(nextId) && r.value.businessId == businessId
                && r.value.title == title && r.value.description == description
                && r.value.location == location && r.value.salary == salary
                && r.value.status == status
                && (r.value.publishedAt.Some? <==> status == ACTIVE)
                && (r.value.publishedAt.Some? ==> r.value.publishedAt == Some(now))
                && IsVacancyCode(r.value.code) && !CodeTaken(old(vacancies), r.value.code)
    {
      var code := GenerateUniqueCode(draw);
      if code.Fail? {
        return Fail(code.error);
      }
      var vacancy := Vacancy(nextId, businessId, code.value, title, description, location, salary, status,
                             now, now, if status == ACTIVE then Some(now) else None);
      vacancies := vacancies[nextId := vacancy];
      nextId := nextId + 1;
      r := Ok(vacancy);
    }

    /** publishVacancy: ACTIVE, and publishedAt overwritten with now. */
    method PublishVacancy(id: int, now: Minutes) returns (r: Option<Vacancy>)
      requires Valid()
      modifies this
      ensures Valid() && nextId == old(nextId)
      ensures id !in old(vacancies) ==> r.None? && vacancies == old(vacancies)
      ensures id in old(vacancies) ==>
                r == Some(old(vacancies)[id].(status := ACTIVE, publishedAt := Some(now), updatedAt := now))
                && vacancies == old(vacancies)[id := r.value]
    {
      if id !in vacancies {
        return None;
      }
      var vacancy := vacancies[id].(status := ACTIVE, publishedAt := Some(now), updatedAt := now);
      vacancies := vacancies[id := vacancy];
      r := Some(vacancy);
    }

    /** changeStatus: the new status; see StatusChanged for publishedAt. */
    method ChangeStatus(id: int, newStatus: VacancyStatus, now: Minutes) returns (r: Option<Vacancy>)
      requires Valid()
      modifies this
      ensures Valid() && nextId == old(nextId)
      ensures id !in old(vacancies) ==> r.None? && vacancies == old(vacancies)
      ensures id in old(vacancies) ==>
                r == Some(StatusChanged(old(vacancies)[id], newStatus, now))
                && vacancies == old(vacancies)[id := r.value]
    {
      if id !in vacancies {
        return None;
      }
      var vacancy := StatusChanged(vacancies[id], newStatus, now);
      vacancies := vacancies[id := vacancy];
      r := Some(vacancy);
    }

    /** updateTitle: only the title and updatedAt change. */
    method UpdateTitle(id: int, newTitle: string, now: Minutes) returns (r: Option<Vacancy>)
      requires Valid()
      modifies this
      ensures Valid() && nextId == old(nextId)
      ensures id !in old(vacancies) ==> r.None? && vacancies == old(vacancies)
      ensures id in old(vacancies) ==>
                r == Some(old(vacancies)[id].(title := newTitle, updatedAt := now))
                && vacancies == old(vacancies)[id := r.value]
    {
      if id !in vacancies {
        return None;
      }
      var vacancy := vacancies[id].(title := newTitle, updatedAt := now);
      vacancies := vacancies[id := vacancy];
      r := Some(vacancy);
    }

    /** updateDescription: only the description and updatedAt change. */
    method UpdateDescription(id: int, newDescription: string, now: Minutes) returns (r: Option<Vacancy>)
      requires Valid()
      modifies this
      ensures Valid() && nextId == old(nextId)
      ensures id !in old(vacancies) ==> r.None? && vacancies == old(vacancies)
      ensures id in old(vacancies) ==>
                r == Some(old(vacancies)[id].(description := newDescription, updatedAt := now))
                && vacancies == old(vacancies)[id := r.value]
    {
      if id !in vacancies {
        return None;
      }
      var vacancy := vacancies[id].(description := newDescription, updatedAt := now);
      vacancies := vacancies[id := vacancy];
      r := Some(vacancy);
    }

    /** updateLocation: only the location (possibly cleared) and updatedAt change. */
    method UpdateLocation(id: int, newLocation: Option<string>, now: Minutes) returns (r: Option<Vacancy>)
      requires Valid()
      modifies this
      ensures Valid() && nextId == old(nextId)
      ensures id !in old(vacancies) ==> r.None? && vacancies == old(vacancies)
      ensures id in old(vacancies) ==>
                r == Some(old(vacancies)[id].(location := newLocation, updatedAt := now))
                && vacancies == old(vacancies)[id := r.value]
    {
      if id !in vacancies {
        return None;
      }
      var vacancy := vacancies[id].(location := newLocation, updatedAt := now);
      vacancies := vacancies[id := vacancy];
      r := Some(vacancy);
    }

    /** updateSalary: only the salary (possibly cleared) and updatedAt change. */
    method UpdateSalary(id: int, newSalary: Option<string>, now: Minutes) returns (r: Option<Vacancy>)
      requires Valid()
      modifies this
      ensures Valid() && nextId == old(nextId)
      ensures id !in old(vacancies) ==> r.None? && vacancies == old(vacancies)
      ensures id in old(vacancies) ==>
                r == Some(old(vacancies)[id].(salary := newSalary, updatedAt := now))
                && vacancies == old(vacancies)[id := r.value]
    {
      if id !in vacancies {
        return None;
      }
      var vacancy := vacancies[id].(salary := newSalary, updatedAt := now);
      vacancies := vacancies[id := vacancy];
      r := Some(vacancy);
    }

    /** deleteVacancy: false for an unknown id; otherwise the row is gone. */
    method DeleteVacancy(id: int) returns (deleted: bool)
      requires Valid()
      modifies this
      ensures Valid() && nextId == old(nextId)
      ensures deleted <==> id in old(vacancies)
      ensures vacancies == old(vacancies) - {id}
    {
      deleted := id in vacancies;
      vacancies := vacancies - {id};
    }
  }
}
