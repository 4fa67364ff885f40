/**
 * The expense service: existence checks before every read, update or delete
 * by id, the entity-to-transfer-record mapping, in-place field replacement on
 * update, and the loops that map query results to transfer records.
 */
module Service {
  import opened Wrappers
  import opened Dates
  import opened Categories
  import opened Entity
  import opened Repository

  /** The transfer record exchanged with callers: the entity's five fields, amount in cents. */
  datatype ExpenseDto = ExpenseDto(
    id: int,
    description: string,
    amount: int,
    category: ExpenseCategory,
    date: LocalDate)

  /** One line of the monthly summary: a category name and its total, in cents. */
  datatype CategorySumDto = CategorySumDto(category: string, sum: int)

  /** The request kind that a not-found error carries. */
  datatype HttpMethod = GET | PUT | DELETE

  datatype ServiceError =
    | NotFound(kind: HttpMethod, id: int)  // NoResourceFoundException
    | Rejected(cause: StoreError)            // a storage failure, passed on unchanged

  /** mapDto: the transfer record of an entity. */
  function MapDto(e: ExpenseRecord): ExpenseDto {
    ExpenseDto(e.id, e.description, e.amount, e.category, e.date)
  }

  /** The entity that `save` builds with the four-argument constructor. */
  function NewEntity(dto: ExpenseDto): ExpenseRecord {
    ExpenseRecord(UnassignedId, dto.description, dto.amount, dto.category, dto.date)
  }

  /** The entity after `updateExpense` has called its four setters with the dto's values. */
  function Overwritten(x: ExpenseRecord, dto: ExpenseDto): ExpenseRecord {
    x.(description := dto.description, amount := dto.amount, category := dto.category, date := dto.date)
  }

  /** mapDto loses nothing: distinct entities have distinct transfer records. */
  lemma MapDtoInjective(a: ExpenseRecord, b: ExpenseRecord)
    ensures MapDto(a) == MapDto(b) <==> a == b
  {
  }

  /**
   * Round trip: saving a dto into a valid table adds exactly one row, under
   * the next identity value, and looking that id up gives back the dto's
   * description, amount, category and date with the assigned id.
   */
  lemma SaveThenFind(t: Table, dto: ExpenseDto)
    requires TableValid(t)
    ensures SaveRecord(t, NewEntity(dto)).rows == t.rows + [NewEntity(dto).(id := t.nextId)]
    ensures SaveRecord(t, NewEntity(dto)).nextId == t.nextId + 1
    ensures Lookup(SaveRecord(t, NewEntity(dto)).rows, t.nextId).Some?
    ensures MapDto(Lookup(SaveRecord(t, NewEntity(dto)).rows, t.nextId).value) == dto.(id := t.nextId)
    ensures forall k :: k != t.nextId ==> Lookup(SaveRecord(t, NewEntity(dto)).rows, k) == Lookup(t.rows, k)
  {
    forall k ensures Lookup(SaveRecord(t, NewEntity(dto)).rows, k) ==
                     if k == t.nextId then Some(NewEntity(dto).(id := t.nextId)) else Lookup(t.rows, k)
    {
      LookupAfterSave(t, NewEntity(dto), k);
    }
  }

  /**
   * Update visibility: overwriting a stored entity with a dto keeps its id and
   * its place; looking the id up afterwards gives the dto's fields with the
   * stored id, and every other id is untouched.
   */
  lemma UpdateThenFind(t: Table, id: int, dto: ExpenseDto)
    requires TableValid(t)
    requires Lookup(t.rows, id).Some?
    ensures SaveRecord(t, Overwritten(Lookup(t.rows, id).value, dto)) ==
            t.(rows := Replace(t.rows, Overwritten(Lookup(t.rows, id).value, dto)))
    ensures |SaveRecord(t, Overwritten(Lookup(t.rows, id).value, dto)).rows| == |t.rows|
    ensures Lookup(SaveRecord(t, Overwritten(Lookup(t.rows, id).value, dto)).rows, id).Some?
    ensures MapDto(Lookup(SaveRecord(t, Overwritten(Lookup(t.rows, id).value, dto)).rows, id).value) == dto.(id := id)
    ensures forall k :: k != id ==>
              Lookup(SaveRecord(t, Overwritten(Lookup(t.rows, id).value, dto)).rows, k) == Lookup(t.rows, k)
  {
    var x := Overwritten(Lookup(t.rows, id).value, dto);
    assert IsUpdate(t, x);
    forall k ensures Lookup(Replace(t.rows, x), k) == if k == id then Some(x) else Lookup(t.rows, k) {
      LookupAfterReplace(t.rows, x, k);
    }
  }

  /**
   * Delete finality: after deleting an id it is no longer found, so a second
   * delete or a find of it fails; every other id is untouched.
   */
  lemma DeleteThenFind(t: Table, id: int)
    requires TableValid(t)
    ensures Lookup(Remove(t.rows, id), id).None?
    ensures forall k :: k != id ==> Lookup(Remove(t.rows, id), k) == Lookup(t.rows, k)
    ensures Lookup(t.rows, id).Some? ==> |Remove(t.rows, id)| == |t.rows| - 1
  {
    forall k ensures Lookup(Remove(t.rows, id), k) == if k == id then None else Lookup(t.rows, k) {
      LookupAfterRemove(t.rows, id, k);
    }
    if Lookup(t.rows, id).Some? {
      RemoveDropsOne(t.rows, id);
    }
  }

  /** Deleting a stored id from a table with one row per id removes exactly one row. */
  lemma {:induction false} RemoveDropsOne(rows: seq<ExpenseRecord>, id: int)
    requires IdsAscending(rows)
    requires Lookup(rows, id).Some?
    ensures |Remove(rows, id)| == |rows| - 1
  {
    AscendingTail(rows);
    if rows[0].id == id {
      assert Remove(rows, id) == Remove(rows[1..], id);
      forall y | y in rows[1..] ensures OtherThan(id)(y) {
      }
      WhereAll(rows[1..], OtherThan(id));
    } else {
      assert Remove(rows, id) == [rows[0]] + Remove(rows[1..], id);
      RemoveDropsOne(rows[1..], id);
    }
  }

  /** Selecting with a condition every row meets keeps every row. */
  lemma {:induction false} WhereAll(rows: seq<ExpenseRecord>, p: ExpenseRecord -> bool)
    requires forall y :: y in rows ==> p(y)
    ensures Where(rows, p) == rows
  {
    if rows != [] {
      assert rows[0] in rows;
      assert forall y :: y in rows[1..] ==> y in rows;
      WhereAll(rows[1..], p);
      assert rows == [rows[0]] + rows[1..];
    }
  }

  /**
   * Transfer records mapped one by one from the filtered search are exactly
   * the records of the stored entities of that category dated from `from` to
   * `to`, in ascending id order.
   */
  lemma SearchDtosCorrect(t: Table, from: LocalDate, to: LocalDate, category: ExpenseCategory, dtos: seq<ExpenseDto>)
    requires TableValid(t)
    requires |dtos| == |FilterRows(t.rows, from, to, Name(category))|
    requires forall i :: 0 <= i < |dtos| ==> dtos[i] == MapDto(FilterRows(t.rows, from, to, Name(category))[i])
    ensures forall x :: x in t.rows ==> (MapDto(x) in dtos <==> x.category == category && Between(x.date, from, to))
    ensures forall d :: d in dtos ==> exists x :: x in t.rows && d == MapDto(x)
    ensures forall i, j :: 0 <= i < j < |dtos| ==> dtos[i].id < dtos[j].id
  {
    var q := FilterRows(t.rows, from, to, Name(category));
    FilterRowsCorrect(t, from, to, category);
    forall x | x in t.rows
      ensures MapDto(x) in dtos <==> x.category == category && Between(x.date, from, to)
    {
      if MapDto(x) in dtos {
        var k :| 0 <= k < |dtos| && dtos[k] == MapDto(x);
        assert q[k] in q;
      }
    }
    forall d | d in dtos ensures exists x :: x in t.rows && d == MapDto(x) {
      var k :| 0 <= k < |dtos| && dtos[k] == d;
      assert q[k] in q;
    }
  }

  /**
   * Summary lines copied one by one from the category-sum query carry, for
   * each category with rows in that month, its exact total, and nothing else,
   * in ascending name order.
   */
  lemma SummaryLinesCorrect(rows: seq<ExpenseRecord>, year: int, month: int, dtos: seq<CategorySumDto>)
    requires |dtos| == |CategorySumRows(rows, year, month)|
    requires forall i :: 0 <= i < |dtos| ==>
               dtos[i] == CategorySumDto(CategorySumRows(rows, year, month)[i].category, CategorySumRows(rows, year, month)[i].total)
    ensures forall c :: HasCategory(MonthRows(rows, year, month), c) <==>
              CategorySumDto(Name(c), Total(MonthRows(rows, year, month), c)) in dtos
    ensures forall d :: d in dtos ==>
              exists c :: HasCategory(MonthRows(rows, year, month), c) &&
                          d == CategorySumDto(Name(c), Total(MonthRows(rows, year, month), c))
    ensures forall i, j :: 0 <= i < j < |dtos| ==> TextBefore(dtos[i].category, dtos[j].category)
  {
    var results := CategorySumRows(rows, year, month);
    CategorySumCorrect(rows, year, month);
    var m := MonthRows(rows, year, month);
    forall c ensures HasCategory(m, c) <==> CategorySumDto(Name(c), Total(m, c)) in dtos {
      if HasCategory(m, c) {
        var k :| 0 <= k < |results| && results[k] == SumRow(Name(c), Total(m, c));
        assert dtos[k] == CategorySumDto(Name(c), Total(m, c));
      }
    }
    forall d | d in dtos
      ensures exists c :: HasCategory(m, c) && d == CategorySumDto(Name(c), Total(m, c))
    {
      var k :| 0 <= k < |dtos| && dtos[k] == d;
      assert results[k] in results;
    }
  }

  /** The service, holding the repository it was constructed with. */
  class ExpenseService {
    const repository: ExpenseRepository

    constructor (repository: ExpenseRepository)
      ensures this.repository == repository
    {
      this.repository := repository;
    }

    ghost predicate Valid()
      reads this, repository
    {
      repository.Valid()
    }

    /**
     * save: stores a new entity built from the dto's description, amount,
     * category and date (the dto's id is ignored) and returns the dto it was
     * given, so the caller does not learn the assigned id.  A storage
     * rejection is passed on and nothing is stored.
     */
    method Save(dto: ExpenseDto) returns (r: Result<ExpenseDto, ServiceError>)
      requires Valid()
      modifies repository
      ensures Valid()
      ensures SatisfiesConstraints(NewEntity(dto)) ==>
                && r == Ok(dto)
                && repository.rows == old(repository.rows) + [NewEntity(dto).(id := old(repository.nextId))]
                && repository.nextId == old(repository.nextId) + 1
      ensures !SatisfiesConstraints(NewEntity(dto)) ==>
                r == Err(Rejected(ConstraintViolation)) && repository.Contents() == old(repository.Contents())
    {
      var e := new Expense(dto.description, dto.amount, dto.category, dto.date);
      var saved := repository.Save(e);
      if saved.Err? {
        return Err(Rejected(saved.error));
      }
      r := Ok(dto);
    }

    /** find: the transfer record of the entity with that id, or NotFound(GET, id). */
    method Find(id: int) returns (r: Result<ExpenseDto, ServiceError>)
      ensures Lookup(repository.rows, id).Some? ==> r == Ok(MapDto(Lookup(repository.rows, id).value))
      ensures Lookup(repository.rows, id).None? ==> r == Err(NotFound(GET, id))
      ensures r.Ok? ==> r.value.id == id && exists x :: x in repository.rows && r.value == MapDto(x)
    {
      var found := repository.FindById(id);
      if found.Some? {
        return Ok(MapDto(found.value.State()));
      } else {
        return Err(NotFound(GET, id));
      }
    }

    /** delete: removes the entity with that id, or fails with NotFound(DELETE, id) and changes nothing. */
    method Delete(id: int) returns (r: Outcome<ServiceError>)
      requires Valid()
      modifies repository
      ensures Valid()
      ensures old(Lookup(repository.rows, id)).Some? ==>
                r == Pass && repository.Contents() == old(repository.Contents()).(rows := Remove(old(repository.rows), id))
      ensures old(Lookup(repository.rows, id)).None? ==>
                r == Fail(NotFound(DELETE, id)) && repository.Contents() == old(repository.Contents())
    {
      var found := repository.FindById(id);
      if found.Some? {
        repository.DeleteById(id);
        r := Pass;
      } else {
        r := Fail(NotFound(DELETE, id));
      }
    }

    /**
     * updateExpense: overwrites description, amount, category and date of the
     * entity with that id, keeping its id, and returns the dto it was given;
     * fails with NotFound(PUT, id) and changes nothing when the id is not
     * stored.  A storage rejection is passed on and nothing changes.
     */
    method UpdateExpense(dto: ExpenseDto, id: int) returns (r: Result<ExpenseDto, ServiceError>)
      requires Valid()
      modifies repository
      ensures Valid()
      ensures old(Lookup(repository.rows, id)).None? ==>
                r == Err(NotFound(PUT, id)) && repository.Contents() == old(repository.Contents())
      ensures old(Lookup(repository.rows, id)).Some? &&
              SatisfiesConstraints(Overwritten(old(Lookup(repository.rows, id)).value, dto)) ==>
                && r == Ok(dto)
                && repository.Contents() ==
                   old(repository.Contents()).(rows := Replace(old(repository.rows), Overwritten(old(Lookup(repository.rows, id)).value, dto)))
      ensures old(Lookup(repository.rows, id)).Some? &&
              !SatisfiesConstraints(Overwritten(old(Lookup(repository.rows, id)).value, dto)) ==>
                r == Err(Rejected(ConstraintViolation)) && repository.Contents() == old(repository.Contents())
    {
      var found := repository.FindById(id);
      if found.None? {
        return Err(NotFound(PUT, id));
      }
      var expenseToUpdate := found.value;
      expenseToUpdate.SetDescription(dto.description);
      expenseToUpdate.SetAmount(dto.amount);
      expenseToUpdate.SetCategory(dto.category);
      expenseToUpdate.SetDate(dto.date);
      var saved := repository.Save(expenseToUpdate);
      if saved.Err? {
        return Err(Rejected(saved.error));
      }
      r := Ok(dto);
    }

    /**
     * filteredSearch: the transfer records of the repository's result, one per
     * row and in the same order; so exactly the stored entities of that
     * category dated from `from` to `to` inclusive, in ascending id order.
     */
    method FilteredSearch(from: LocalDate, to: LocalDate, category: ExpenseCategory) returns (dtos: seq<ExpenseDto>)
      requires Valid()
      ensures |dtos| == |repository.FilteredSearch(from, to, Name(category))|
      ensures forall i :: 0 <= i < |dtos| ==> dtos[i] == MapDto(repository.FilteredSearch(from, to, Name(category))[i])
      ensures forall x :: x in repository.rows ==>
                (MapDto(x) in dtos <==> x.category == category && Between(x.date, from, to))
      ensures forall d :: d in dtos ==> exists x :: x in repository.rows && d == MapDto(x)
      ensures forall i, j :: 0 <= i < j < |dtos| ==> dtos[i].id < dtos[j].id
    {
      var filteredExpenses := repository.FilteredSearch(from, to, Name(category));
      dtos := [];
      for i := 0 to |filteredExpenses|
        invariant |dtos| == i
        invariant forall k :: 0 <= k < i ==> dtos[k] == MapDto(filteredExpenses[k])
      {
        dtos := dtos + [MapDto(filteredExpenses[i])];
      }
      SearchDtosCorrect(repository.Contents(), from, to, category, dtos);
    }

    /**
     * categorySum: one summary line per repository row, in the same order,
     * with category and total copied; so one line per category that has an
     * entity dated in that year and month, carrying the exact sum of their
     * amounts, in ascending order of category name.
     */
    method CategorySum(year: int, month: int) returns (dtos: seq<CategorySumDto>)
      ensures |dtos| == |repository.CategorySum(year, month)|
      ensures forall i :: 0 <= i < |dtos| ==>
                dtos[i] == CategorySumDto(repository.CategorySum(year, month)[i].category, repository.CategorySum(year, month)[i].total)
      ensures forall c :: HasCategory(MonthRows(repository.rows, year, month), c) <==>
                CategorySumDto(Name(c), Total(MonthRows(repository.rows, year, month), c)) in dtos
      ensures forall d :: d in dtos ==>
                exists c :: HasCategory(MonthRows(repository.rows, year, month), c) &&
                            d == CategorySumDto(Name(c), Total(MonthRows(repository.rows, year, month), c))
      ensures forall i, j :: 0 <= i < j < |dtos| ==> TextBefore(dtos[i].category, dtos[j].category)
    {
      var results := repository.CategorySum(year, month);
      dtos := [];
      for i := 0 to |results|
        invariant |dtos| == i
        invariant forall k :: 0 <= k < i ==> dtos[k] == CategorySumDto(results[k].category, results[k].total)
      {
        var row := results[i];
        dtos := dtos + [CategorySumDto(row.category, row.total)];
      }
      SummaryLinesCorrect(repository.rows, year, month, dtos);
    }
  }
}
