/**
 * Client flows over the service and repository contracts, mirroring the
 * integration scenarios of the source: each starts from an empty table (as
 * after `TRUNCATE ... RESTART IDENTITY`) and states what the calls return.
 */
module Scenarios {
  import opened Wrappers
  import opened Dates
  import opened Categories
  import opened Entity
  import opened Repository
  import opened Service

  /** After a reset the first saved expense gets id 1, and finding id 1 returns the dto's fields with that id. */
  method CreateThenFind(dto: ExpenseDto) returns (saved: Result<ExpenseDto, ServiceError>, found: Result<ExpenseDto, ServiceError>)
    ensures SatisfiesConstraints(NewEntity(dto)) ==> saved == Ok(dto) && found == Ok(dto.(id := 1))
    ensures !SatisfiesConstraints(NewEntity(dto)) ==>
              saved == Err(Rejected(ConstraintViolation)) && found == Err(NotFound(GET, 1))
  {
    var repository := new ExpenseRepository();
    var service := new ExpenseService(repository);
    saved := service.Save(dto);
    found := service.Find(1);
  }

  /** Updating the stored expense replaces its four fields and keeps its id; a rejected update changes nothing. */
  method UpdateThenFind(dto: ExpenseDto, update: ExpenseDto)
    returns (updated: Result<ExpenseDto, ServiceError>, found: Result<ExpenseDto, ServiceError>)
    requires SatisfiesConstraints(NewEntity(dto))
    ensures SatisfiesConstraints(NewEntity(update)) ==> updated == Ok(update) && found == Ok(update.(id := 1))
    ensures !SatisfiesConstraints(NewEntity(update)) ==>
              updated == Err(Rejected(ConstraintViolation)) && found == Ok(dto.(id := 1))
  {
    var repository := new ExpenseRepository();
    var service := new ExpenseService(repository);
    var _ := service.Save(dto);
    updated := service.UpdateExpense(update, 1);
    found := service.Find(1);
  }

  /** Deleting the stored expense succeeds once; afterwards finding or deleting it fails with NotFound. */
  method DeleteTwice(dto: ExpenseDto)
    returns (first: Outcome<ServiceError>, found: Result<ExpenseDto, ServiceError>, second: Outcome<ServiceError>)
    requires SatisfiesConstraints(NewEntity(dto))
    ensures first == Pass
    ensures found == Err(NotFound(GET, 1))
    ensures second == Fail(NotFound(DELETE, 1))
  {
    var repository := new ExpenseRepository();
    var service := new ExpenseService(repository);
    var _ := service.Save(dto);
    first := service.Delete(1);
    found := service.Find(1);
    second := service.Delete(1);
  }

  /** On an empty table every operation by id fails with NotFound naming its request kind, and nothing is created. */
  method MissingId(dto: ExpenseDto, id: int)
    returns (found: Result<ExpenseDto, ServiceError>, updated: Result<ExpenseDto, ServiceError>,
             deleted: Outcome<ServiceError>, stored: seq<ExpenseRecord>)
    ensures found == Err(NotFound(GET, id))
    ensures updated == Err(NotFound(PUT, id))
    ensures deleted == Fail(NotFound(DELETE, id))
    ensures stored == []
  {
    var repository := new ExpenseRepository();
    var service := new ExpenseService(repository);
    found := service.Find(id);
    updated := service.UpdateExpense(dto, id);
    deleted := service.Delete(id);
    stored := repository.rows;
  }

  /** Stores one expense through the repository, as the scenarios' `repo.saveAll` does. */
  method Store(repository: ExpenseRepository, description: string, amount: int, category: ExpenseCategory, date: LocalDate)
    requires repository.Valid()
    requires SatisfiesConstraints(ExpenseRecord(UnassignedId, description, amount, category, date))
    modifies repository
    ensures repository.Valid()
    ensures repository.rows == old(repository.rows) + [ExpenseRecord(old(repository.nextId), description, amount, category, date)]
    ensures repository.nextId == old(repository.nextId) + 1
  {
    var e := new Expense(description, amount, category, date);
    var _ := repository.Save(e);
  }

  /**
   * Of four stored expenses, the search for FOOD from 2024-03-01 to 2024-03-31
   * returns Lunch and then Dinner; the search for GROCERY returns nothing.
   */
  method FilterScenario() returns (food: seq<ExpenseDto>, grocery: seq<ExpenseDto>)
    ensures food == [ExpenseDto(3, "Lunch", 599, FOOD, Date(2024, 3, 8)),
                     ExpenseDto(4, "Dinner", 1299, FOOD, Date(2024, 3, 21))]
    ensures grocery == []
  {
    var repository := new ExpenseRepository();
    var service := new ExpenseService(repository);
    StoreFilterTable(repository);
    food := MarchFoodSearch(service);
    grocery := MarchGrocerySearch(service);
  }

  /** Saves the four expenses of the filtered-search scenario into an empty table. */
  method StoreFilterTable(repository: ExpenseRepository)
    requires repository.Valid() && repository.rows == [] && repository.nextId == 1
    modifies repository
    ensures repository.Valid() && repository.rows == FilterTable()
  {
    Store(repository, "Travelling", 25075, TRAVEL, Date(2024, 2, 13));
    Store(repository, "Electronic equipments", 12599, MISC, Date(2024, 3, 17));
    Store(repository, "Lunch", 599, FOOD, Date(2024, 3, 8));
    Store(repository, "Dinner", 1299, FOOD, Date(2024, 3, 21));
  }

  /** The March search for FOOD over the four rows returns Lunch and then Dinner. */
  method MarchFoodSearch(service: ExpenseService) returns (food: seq<ExpenseDto>)
    requires service.Valid() && service.repository.rows == FilterTable()
    ensures food == [ExpenseDto(3, "Lunch", 599, FOOD, Date(2024, 3, 8)),
                     ExpenseDto(4, "Dinner", 1299, FOOD, Date(2024, 3, 21))]
  {
    var from: LocalDate, to: LocalDate := Date(2024, 3, 1), Date(2024, 3, 31);
    FilterExample();
    food := SearchFor(service, from, to, FOOD, FilterTable()[2..]);
    TwoDtos(food, FilterTable()[2..], FilterTable()[2], FilterTable()[3]);
  }

  /** The March search for GROCERY over the four rows returns nothing. */
  method MarchGrocerySearch(service: ExpenseService) returns (grocery: seq<ExpenseDto>)
    requires service.Valid() && service.repository.rows == FilterTable()
    ensures grocery == []
  {
    var from: LocalDate, to: LocalDate := Date(2024, 3, 1), Date(2024, 3, 31);
    FilterExample();
    grocery := SearchFor(service, from, to, GROCERY, []);
  }

  /** A service search whose repository query is known to return `q` maps `q` row by row. */
  method SearchFor(service: ExpenseService, from: LocalDate, to: LocalDate, category: ExpenseCategory, q: seq<ExpenseRecord>)
    returns (dtos: seq<ExpenseDto>)
    requires service.Valid() && service.repository.FilteredSearch(from, to, Name(category)) == q
    ensures |dtos| == |q|
    ensures forall i :: 0 <= i < |dtos| ==> dtos[i] == MapDto(q[i])
  {
    dtos := service.FilteredSearch(from, to, category);
  }

  /** A result mapped row by row from a two-row query is the two mapped rows. */
  lemma TwoDtos(dtos: seq<ExpenseDto>, q: seq<ExpenseRecord>, a: ExpenseRecord, b: ExpenseRecord)
    requires q == [a, b]
    requires |dtos| == |q|
    requires forall i :: 0 <= i < |dtos| ==> dtos[i] == MapDto(q[i])
    ensures dtos == [MapDto(a), MapDto(b)]
  {
    assert dtos == [dtos[0], dtos[1]];
  }

  /** The rows of the filtered-search scenario, in storage order. */
  function FilterTable(): seq<ExpenseRecord> {
    [ExpenseRecord(1, "Travelling", 25075, TRAVEL, Date(2024, 2, 13)),
     ExpenseRecord(2, "Electronic equipments", 12599, MISC, Date(2024, 3, 17)),
     ExpenseRecord(3, "Lunch", 599, FOOD, Date(2024, 3, 8)),
     ExpenseRecord(4, "Dinner", 1299, FOOD, Date(2024, 3, 21))]
  }

  lemma FilterExample()
    ensures FilterRows(FilterTable(), Date(2024, 3, 1), Date(2024, 3, 31), "FOOD") == FilterTable()[2..]
    ensures FilterRows(FilterTable(), Date(2024, 3, 1), Date(2024, 3, 31), "GROCERY") == []
  {
    var t := FilterTable();
    var food := SearchFilter(Date(2024, 3, 1), Date(2024, 3, 31), "FOOD");
    var grocery := SearchFilter(Date(2024, 3, 1), Date(2024, 3, 31), "GROCERY");
    assert !food(t[0]) && !food(t[1]) && food(t[2]) && food(t[3]);
    assert !grocery(t[0]) && !grocery(t[1]) && !grocery(t[2]) && !grocery(t[3]);
    assert t == [t[0], t[1], t[2], t[3]];
    WhereOfFour(t[0], t[1], t[2], t[3], food);
    WhereOfFour(t[0], t[1], t[2], t[3], grocery);
    assert t == [t[0], t[1], t[2], t[3]];
  }

  /**
   * Of five stored expenses, the summary for March 2024 has exactly two lines,
   * MISC with 126 + 37 = 163.00 and TRAVEL with 55 + 3699 = 3754.00; the
   * February record is left out.
   */
  method SummaryScenario() returns (summary: seq<CategorySumDto>)
    ensures summary == [CategorySumDto("MISC", 16300), CategorySumDto("TRAVEL", 375400)]
  {
    var repository := new ExpenseRepository();
    var service := new ExpenseService(repository);
    StoreSummaryTable(repository);
    summary := MarchSummary(service);
  }

  /** The March summary over the five rows. */
  method MarchSummary(service: ExpenseService) returns (summary: seq<CategorySumDto>)
    requires service.repository.rows == SummaryTable()
    ensures summary == [CategorySumDto("MISC", 16300), CategorySumDto("TRAVEL", 375400)]
  {
    SummaryExample();
    summary := SummaryFor(service, 2024, 3, [SumRow("MISC", 16300), SumRow("TRAVEL", 375400)]);
    TwoLines(summary, [SumRow("MISC", 16300), SumRow("TRAVEL", 375400)]);
  }

  /** Summary lines copied from two query rows are those two rows' category and total. */
  lemma TwoLines(dtos: seq<CategorySumDto>, q: seq<SumRow>)
    requires |q| == 2 && |dtos| == |q|
    requires forall i :: 0 <= i < |dtos| ==> dtos[i] == CategorySumDto(q[i].category, q[i].total)
    ensures dtos == [CategorySumDto(q[0].category, q[0].total), CategorySumDto(q[1].category, q[1].total)]
  {
    assert dtos == [dtos[0], dtos[1]];
  }

  /** Saves the five expenses of the category-sum scenario into an empty table. */
  method StoreSummaryTable(repository: ExpenseRepository)
    requires repository.Valid() && repository.rows == [] && repository.nextId == 1
    modifies repository
    ensures repository.Valid() && repository.rows == SummaryTable()
  {
    Store(repository, "Travelling", 25075, TRAVEL, Date(2024, 2, 13));
    Store(repository, "Electronic equipments", 12600, MISC, Date(2024, 3, 7));
    Store(repository, "Gardening stuff", 3700, MISC, Date(2024, 3, 12));
    Store(repository, "Visited Pune", 5500, TRAVEL, Date(2024, 3, 5));
    Store(repository, "Visited Munich", 369900, TRAVEL, Date(2024, 3, 19));
  }

  /** A service summary whose repository query is known to return `q` copies `q` line by line. */
  method SummaryFor(service: ExpenseService, year: int, month: int, q: seq<SumRow>) returns (dtos: seq<CategorySumDto>)
    requires service.repository.CategorySum(year, month) == q
    ensures |dtos| == |q|
    ensures forall i :: 0 <= i < |dtos| ==> dtos[i] == CategorySumDto(q[i].category, q[i].total)
  {
    dtos := service.CategorySum(year, month);
  }

  /** The rows of the category-sum scenario, in storage order. */
  function SummaryTable(): seq<ExpenseRecord> {
    [ExpenseRecord(1, "Travelling", 25075, TRAVEL, Date(2024, 2, 13)),
     ExpenseRecord(2, "Electronic equipments", 12600, MISC, Date(2024, 3, 7)),
     ExpenseRecord(3, "Gardening stuff", 3700, MISC, Date(2024, 3, 12)),
     ExpenseRecord(4, "Visited Pune", 5500, TRAVEL, Date(2024, 3, 5)),
     ExpenseRecord(5, "Visited Munich", 369900, TRAVEL, Date(2024, 3, 19))]
  }

  lemma SummaryExample()
    ensures CategorySumRows(SummaryTable(), 2024, 3) == [SumRow("MISC", 16300), SumRow("TRAVEL", 375400)]
  {
    var t := SummaryTable();
    var m := [t[1], t[2], t[3], t[4]];
    SummaryMonth();
    SummaryTotals(m);
    SummaryGroups(m);
    GroupsByName(m);
  }

  /** The March rows of the category-sum scenario: all but the February one. */
  lemma SummaryMonth()
    ensures MonthRows(SummaryTable(), 2024, 3) == SummaryTable()[1..]
  {
    var t := SummaryTable();
    var march := MonthFilter(2024, 3);
    assert !march(t[0]) && march(t[1]) && march(t[2]) && march(t[3]) && march(t[4]);
    assert t == [t[0]] + [t[1], t[2], t[3], t[4]];
    WhereCons(t[0], [t[1], t[2], t[3], t[4]], march);
    WhereOfFour(t[1], t[2], t[3], t[4], march);
  }

  lemma SummaryTotals(m: seq<ExpenseRecord>)
    requires m == SummaryTable()[1..]
    ensures Total(m, MISC) == 16300 && Total(m, TRAVEL) == 375400
  {
    var misc, travel := OfCategory(MISC), OfCategory(TRAVEL);
    assert m == [m[0], m[1], m[2], m[3]];
    assert misc(m[0]) && misc(m[1]) && !misc(m[2]) && !misc(m[3]);
    assert !travel(m[0]) && !travel(m[1]) && travel(m[2]) && travel(m[3]);
    WhereOfFour(m[0], m[1], m[2], m[3], misc);
    WhereOfFour(m[0], m[1], m[2], m[3], travel);
    SumOfTwo(m[0], m[1]);
    SumOfTwo(m[2], m[3]);
  }

  lemma SummaryGroups(m: seq<ExpenseRecord>)
    requires m == SummaryTable()[1..]
    ensures HasCategory(m, MISC) && HasCategory(m, TRAVEL)
    ensures !HasCategory(m, ACADEMIC) && !HasCategory(m, FOOD) && !HasCategory(m, GROCERY)
  {
    assert m == [m[0], m[1], m[2], m[3]];
    CategoriesOfFour(m[0], m[1], m[2], m[3]);
  }

  /** The categories with rows among four rows are those four rows' categories. */
  lemma CategoriesOfFour(a: ExpenseRecord, b: ExpenseRecord, c: ExpenseRecord, d: ExpenseRecord)
    ensures forall k :: HasCategory([a, b, c, d], k) <==>
              k == a.category || k == b.category || k == c.category || k == d.category
  {
    forall k | k == a.category || k == b.category || k == c.category || k == d.category
      ensures HasCategory([a, b, c, d], k)
    {
      assert a in [a, b, c, d] && b in [a, b, c, d] && c in [a, b, c, d] && d in [a, b, c, d];
    }
  }

  /** Grouping in name order when only MISC and TRAVEL have rows. */
  lemma GroupsByName(m: seq<ExpenseRecord>)
    requires HasCategory(m, MISC) && HasCategory(m, TRAVEL)
    requires !HasCategory(m, ACADEMIC) && !HasCategory(m, FOOD) && !HasCategory(m, GROCERY)
    ensures GroupSums(m, ByName) == [SumRow("MISC", Total(m, MISC)), SumRow("TRAVEL", Total(m, TRAVEL))]
  {
    var misc, travel := SumRow("MISC", Total(m, MISC)), SumRow("TRAVEL", Total(m, TRAVEL));
    GroupSumsCons(m, TRAVEL, []);
    assert GroupSums(m, [TRAVEL]) == [travel];
    GroupSumsCons(m, MISC, [TRAVEL]);
    assert GroupSums(m, [MISC, TRAVEL]) == [misc, travel];
    GroupSumsCons(m, GROCERY, [MISC, TRAVEL]);
    assert GroupSums(m, [GROCERY, MISC, TRAVEL]) == [misc, travel];
    GroupSumsCons(m, FOOD, [GROCERY, MISC, TRAVEL]);
    assert GroupSums(m, [FOOD, GROCERY, MISC, TRAVEL]) == [misc, travel];
    GroupSumsCons(m, ACADEMIC, [FOOD, GROCERY, MISC, TRAVEL]);
  }

  lemma SumOfTwo(a: ExpenseRecord, b: ExpenseRecord)
    ensures SumAmounts([a, b]) == a.amount + b.amount
  {
    assert [a, b][1..] == [b];
    assert [b][1..] == [];
    assert SumAmounts([b]) == b.amount;
  }

  lemma GroupSumsCons(rows: seq<ExpenseRecord>, c: ExpenseCategory, cats: seq<ExpenseCategory>)
    ensures GroupSums(rows, [c] + cats) ==
            (if HasCategory(rows, c) then [SumRow(Name(c), Total(rows, c))] else []) + GroupSums(rows, cats)
  {
    assert ([c] + cats)[1..] == cats;
  }

  lemma WhereCons(x: ExpenseRecord, rest: seq<ExpenseRecord>, p: ExpenseRecord -> bool)
    ensures Where([x] + rest, p) == (if p(x) then [x] else []) + Where(rest, p)
  {
    assert ([x] + rest)[1..] == rest;
  }

  /** Where on four rows, for the selections the scenarios make. */
  lemma WhereOfFour(a: ExpenseRecord, b: ExpenseRecord, c: ExpenseRecord, d: ExpenseRecord, p: ExpenseRecord -> bool)
    ensures !p(a) && !p(b) && p(c) && p(d) ==> Where([a, b, c, d], p) == [c, d]
    ensures !p(a) && !p(b) && !p(c) && !p(d) ==> Where([a, b, c, d], p) == []
    ensures p(a) && p(b) && !p(c) && !p(d) ==> Where([a, b, c, d], p) == [a, b]
    ensures p(a) && p(b) && p(c) && p(d) ==> Where([a, b, c, d], p) == [a, b, c, d]
  {
    assert [a, b, c, d] == [a] + [b, c, d];
    assert [b, c, d] == [b] + [c, d];
    assert [c, d] == [c] + [d];
    assert [d] == [d] + [];
    WhereCons(d, [], p);
    WhereCons(c, [d], p);
    WhereCons(b, [c, d], p);
    WhereCons(a, [b, c, d], p);
  }
}
