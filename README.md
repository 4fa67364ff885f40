# Mini Expense Tracker — verified model of the expense service and its storage

This project models the core of the Mini Expense Tracker, a small Spring Boot
service that records personal expenses and answers two queries over them.
Each expense has a description, an amount, a category and a date. The model
covers four parts.

- **The `Expense` entity** (module `Entity`). It is a class with five mutable
  fields, the four-argument constructor that leaves the id to storage, an
  all-arguments constructor and the Lombok setters. The column and validation
  annotations become the predicate `SatisfiesConstraints`: a description of at
  most 100 characters and an amount of at least 1.00.
- **The expenses table behind `ExpenseRepository`** (module `Repository`). It
  is a class holding the rows in storage order and the next value of the
  IDENTITY id column. From JPA it inherits `save`, `findById` and `deleteById`,
  modelled as methods. The two native queries, `filteredSearch` and
  `categorySum`, are modelled as read-only functions. Each method is specified
  by a pure function on `Table` values (`SaveRecord`, `Lookup`, `Remove`,
  `FilterRows`, `CategorySumRows`), and the lemmas are stated about those
  functions.
- **`ExpenseService`** (module `Service`). Every read, update or delete by id
  first checks that the id exists; if it does not, the call fails with
  `NotFound` carrying the request kind (GET, PUT or DELETE) and the id. The
  entity-to-dto mapping is `MapDto`. An update overwrites four fields in
  place. `filteredSearch` and `categorySum` map query results to dtos in
  `for` loops.
- **Scenarios** (module `Scenarios`). These replay the integration tests from
  an empty table, as right after `TRUNCATE TABLE expenses RESTART IDENTITY`,
  and prove the exact results.

Supporting modules:
- `Wrappers`: `Option`, `Result` and `Outcome`.
- `Dates`: `LocalDate` is a subset type of real calendar dates. A lemma proves
  that the lexicographic (year, month, day) order used for SQL `BETWEEN` is
  the chronological order.
- `Categories`: the enum, its stored name and the order of names.

Representation choices:
- Amounts are integer cents, because the amount column has scale 2.
- Find, filtered search and category sum have no `modifies` clause, so they
  cannot change the store. The two queries are functions that only read the
  table.

Where the system's written design and its code disagree, the model follows
the code:
- **`save` return value.** The design says `save` returns the stored record
  with the assigned id. The code returns the caller's dto unchanged
  (ExpenseService.java line 34), so `Service.ExpenseService.Save` ensures
  `r == Ok(dto)`.
- **Minimum amount.** The design says an amount must be greater than 0. The
  entity's annotation is `@Min(1)`, so the model requires at least 100 cents.

## Model

| member | source | states |
|---|---|---|
| Categories.ValueOf | src/main/java/com/example/Mini/Expense/Tracker/model/Expense.java:34-35 | reading a stored category name gives back the category of that name, and fails only on text that is no category's name |
| Categories.ValueOfName | src/main/java/com/example/Mini/Expense/Tracker/model/Expense.java:34-35 | a category stored by its enum name reads back as the same category |
| Categories.NameInjective | src/main/java/com/example/Mini/Expense/Tracker/service/ExpenseService.java:91 | two categories have the same name exactly when they are the same category, so comparing by name is comparing by category |
| Categories.ByNameOrdered | src/main/java/com/example/Mini/Expense/Tracker/repository/ExpenseRepository.java:30-33 | the grouping order lists every category, in strictly ascending order of name |
| Dates.DaysInMonth | src/main/java/com/example/Mini/Expense/Tracker/model/Expense.java:37-38 | a month has 28 to 31 days, and it has 29 exactly for February of a leap year |
| Dates.AtOrBeforeIsChronological | src/main/java/com/example/Mini/Expense/Tracker/repository/ExpenseRepository.java:21 | the lexicographic date comparison behind `BETWEEN` holds exactly when the first date is no later on the calendar than the second |
| Dates.BeforeHasSmallerDayNumber | src/main/java/com/example/Mini/Expense/Tracker/repository/ExpenseRepository.java:21 | a date strictly before another has a smaller calendar day number |
| Dates.DayNumberInjective | src/main/java/com/example/Mini/Expense/Tracker/repository/ExpenseRepository.java:21 | two dates with the same day number are the same date, so the order is total and antisymmetric |
| Entity.Expense.constructor | src/main/java/com/example/Mini/Expense/Tracker/model/Expense.java:40-47 | the four-argument constructor sets description, amount, category and date from its arguments and leaves the id unassigned (0) |
| Entity.Expense.WithId | src/main/java/com/example/Mini/Expense/Tracker/model/Expense.java:16 | the all-arguments constructor sets all five fields from its arguments |
| Entity.Expense.SetId | src/main/java/com/example/Mini/Expense/Tracker/model/Expense.java:23-25 | assigning the generated id changes the id and no other field |
| Entity.Expense.SetDescription | src/main/java/com/example/Mini/Expense/Tracker/model/Expense.java:20 | the setter changes the description and no other field |
| Entity.Expense.SetAmount | src/main/java/com/example/Mini/Expense/Tracker/model/Expense.java:20 | the setter changes the amount and no other field |
| Entity.Expense.SetCategory | src/main/java/com/example/Mini/Expense/Tracker/model/Expense.java:20 | the setter changes the category and no other field |
| Entity.Expense.SetDate | src/main/java/com/example/Mini/Expense/Tracker/model/Expense.java:20 | the setter changes the date and no other field |
| Repository.Where | src/main/java/com/example/Mini/Expense/Tracker/repository/ExpenseRepository.java:20-21 | a SQL selection contains exactly the rows that satisfy its condition, and never more rows than the table |
| Repository.WhereAscending | src/main/java/com/example/Mini/Expense/Tracker/repository/ExpenseRepository.java:20-26 | selecting from rows in ascending id order keeps ascending id order, so a query returns rows in storage order |
| Repository.Lookup | src/main/java/com/example/Mini/Expense/Tracker/repository/ExpenseRepository.java:18 | findById finds a stored row carrying the requested id, and finds nothing only when no row has that id |
| Repository.LookupStored | src/main/java/com/example/Mini/Expense/Tracker/repository/ExpenseRepository.java:18 | in a table with one row per id, looking up a stored row's id gives that very row |
| Repository.LookupAfterReplace | src/main/java/com/example/Mini/Expense/Tracker/repository/ExpenseRepository.java:18 | after overwriting the row with a stored id, that id finds the new row and every other id finds what it found before |
| Repository.LookupAfterRemove | src/main/java/com/example/Mini/Expense/Tracker/repository/ExpenseRepository.java:18 | after deleting an id, that id finds nothing and every other id finds what it found before |
| Repository.LookupAfterAppend | src/main/java/com/example/Mini/Expense/Tracker/repository/ExpenseRepository.java:18 | after inserting a row under a new id, that id finds the row and every other id finds what it found before |
| Repository.SaveKeepsValid | src/main/java/com/example/Mini/Expense/Tracker/model/Expense.java:23-32 | saving an entity that meets the column constraints keeps the table invariant: ids unique and ascending, all below the next identity value, every row within the constraints |
| Repository.ReplaceKeepsValid | src/main/java/com/example/Mini/Expense/Tracker/repository/ExpenseRepository.java:18 | overwriting a stored row with an entity that meets the constraints keeps ids, order and the identity counter, so the table stays valid |
| Repository.AppendKeepsValid | src/main/java/com/example/Mini/Expense/Tracker/repository/ExpenseRepository.java:18 | appending a valid row under the next identity value and advancing the counter keeps the table valid |
| Repository.LookupAfterSave | src/main/java/com/example/Mini/Expense/Tracker/model/Expense.java:23-25 | after a save the saved row is found under its id and other ids are unaffected; a new id is the next identity value, which no row had, and the counter never goes back |
| Repository.DeleteKeepsValid | src/main/java/com/example/Mini/Expense/Tracker/repository/ExpenseRepository.java:18 | deleteById keeps the table invariant |
| Repository.FilterRowsCorrect | src/main/java/com/example/Mini/Expense/Tracker/repository/ExpenseRepository.java:20-26 | the filtered search returns exactly the stored rows of the requested category dated from `from` to `to` with both bounds inclusive, in ascending id order, and returns the empty list exactly when no row matches |
| Repository.GroupSumsSound | src/main/java/com/example/Mini/Expense/Tracker/repository/ExpenseRepository.java:30-35 | every group row belongs to a listed category that has rows, and carries that category's exact total |
| Repository.GroupSumsComplete | src/main/java/com/example/Mini/Expense/Tracker/repository/ExpenseRepository.java:30-35 | every listed category that has rows gets its group row with its exact total |
| Repository.GroupSumsAscending | src/main/java/com/example/Mini/Expense/Tracker/repository/ExpenseRepository.java:30-35 | group rows appear in the order of the category list |
| Repository.CategorySumCorrect | src/main/java/com/example/Mini/Expense/Tracker/repository/ExpenseRepository.java:30-35 | the monthly summary has a row for a category exactly when some row of that category is dated in that year and month; that row carries the exact sum of those amounts; other categories are omitted; rows come in strictly ascending name order |
| Repository.SumAmountsAtLeast | src/main/java/com/example/Mini/Expense/Tracker/model/Expense.java:30-32 | a sum of amounts that are each at least the minimum is at least the minimum times the number of rows |
| Repository.CategorySumTotalsAtLeastMinimum | src/main/java/com/example/Mini/Expense/Tracker/repository/ExpenseRepository.java:30-35 | over a valid table every summary total is at least 1.00 |
| Repository.TotalAfterInsert | src/main/java/com/example/Mini/Expense/Tracker/repository/ExpenseRepository.java:30-35 | inserting a row adds its amount to its own category's total for its month and leaves every other total unchanged |
| Repository.ExpenseRepository.constructor | src/test/java/com/example/Mini/Expense/Tracker/integrationTesting/IntegrationTest.java:82-83 | a new table is empty and valid, and hands out id 1 first |
| Repository.ExpenseRepository.Reset | src/test/java/com/example/Mini/Expense/Tracker/integrationTesting/IntegrationTest.java:82-83 | deleting all rows and restarting the identity gives an empty table whose next id is 1 |
| Repository.ExpenseRepository.Save | src/main/java/com/example/Mini/Expense/Tracker/repository/ExpenseRepository.java:18 | save rejects an entity that breaks a constraint and changes nothing; otherwise it replaces the row with that id or inserts the entity under the next id, keeps the invariant, and gives a new entity its assigned id |
| Repository.ExpenseRepository.FindById | src/main/java/com/example/Mini/Expense/Tracker/repository/ExpenseRepository.java:18 | findById returns a fresh entity holding the stored row with that id, or nothing when the id is not stored |
| Repository.ExpenseRepository.DeleteById | src/main/java/com/example/Mini/Expense/Tracker/repository/ExpenseRepository.java:18 | deleteById removes the rows with that id, keeps the identity counter and the invariant, and ignores a missing id |
| Service.SearchDtosCorrect | src/main/java/com/example/Mini/Expense/Tracker/service/ExpenseService.java:89-100 | dtos mapped one by one from the filtered search are exactly the dtos of the stored entities of that category dated from `from` to `to`, each from a stored row, in ascending id order |
| Service.SummaryLinesCorrect | src/main/java/com/example/Mini/Expense/Tracker/service/ExpenseService.java:102-112 | summary lines copied one by one from the category-sum query hold a line with the exact total for each category with rows in that month, nothing else, in ascending name order |
| Service.MapDtoInjective | src/main/java/com/example/Mini/Expense/Tracker/service/ExpenseService.java:49-53 | mapDto copies all five fields: two entities map to the same dto exactly when they are equal |
| Service.SaveThenFind | src/main/java/com/example/Mini/Expense/Tracker/service/ExpenseService.java:30-35 | saving a dto adds exactly one row, built from its four fields under the next id; finding that id gives back the dto with that id; every other id is unaffected |
| Service.UpdateThenFind | src/main/java/com/example/Mini/Expense/Tracker/service/ExpenseService.java:69-87 | updating a stored id replaces that row in place, so the number of rows stays the same; finding the id gives the dto's four fields with the stored id; other ids are unaffected |
| Service.DeleteThenFind | src/main/java/com/example/Mini/Expense/Tracker/service/ExpenseService.java:56-67 | after deleting an id it is not found, so a second delete fails; every other id is unaffected; deleting a stored id removes exactly one row |
| Service.RemoveDropsOne | src/main/java/com/example/Mini/Expense/Tracker/service/ExpenseService.java:60 | deleting a stored id from a table with one row per id removes exactly one row |
| Service.ExpenseService.constructor | src/main/java/com/example/Mini/Expense/Tracker/service/ExpenseService.java:23-24 | the service uses the repository it is given |
| Service.ExpenseService.Save | src/main/java/com/example/Mini/Expense/Tracker/service/ExpenseService.java:30-35 | save appends one row built from the dto's description, amount, category and date under the next id, ignoring the dto's id, and returns the dto unchanged; a constraint failure is passed on and nothing is stored |
| Service.ExpenseService.Find | src/main/java/com/example/Mini/Expense/Tracker/service/ExpenseService.java:37-47 | find returns mapDto of the stored entity with that id, or NotFound(GET, id); a successful result carries the requested id and comes from a stored row |
| Service.ExpenseService.Delete | src/main/java/com/example/Mini/Expense/Tracker/service/ExpenseService.java:56-67 | delete removes the entity with that id and succeeds, or fails with NotFound(DELETE, id) and leaves the store unchanged |
| Service.ExpenseService.UpdateExpense | src/main/java/com/example/Mini/Expense/Tracker/service/ExpenseService.java:69-87 | updateExpense replaces only the four fields of the row with that id, keeps its id and every other row, and returns the dto; a missing id fails with NotFound(PUT, id); a constraint failure changes nothing; in both failure cases nothing is created |
| Service.ExpenseService.FilteredSearch | src/main/java/com/example/Mini/Expense/Tracker/service/ExpenseService.java:89-100 | the result is mapDto applied to each row of the repository's result, with the same length and order; it holds exactly the dtos of stored entities of that category dated from `from` to `to`, in ascending id order |
| Service.ExpenseService.CategorySum | src/main/java/com/example/Mini/Expense/Tracker/service/ExpenseService.java:102-112 | the result has one summary dto per repository row, in the same order, with category and total copied; so one line per category with an entity in that month, carrying its exact total, in ascending name order |
| Scenarios.CreateThenFind | src/test/java/com/example/Mini/Expense/Tracker/integrationTesting/IntegrationTest.java:94-133 | on an empty table, saving a valid dto returns it, and finding id 1 gives the dto's fields with id 1; an invalid dto is rejected and id 1 is not found |
| Scenarios.UpdateThenFind | src/test/java/com/example/Mini/Expense/Tracker/integrationTesting/IntegrationTest.java:144-169 | after saving and then updating id 1, find(1) gives the update's fields with id 1; a rejected update leaves the first dto's fields |
| Scenarios.DeleteTwice | src/test/java/com/example/Mini/Expense/Tracker/integrationTesting/IntegrationTest.java:186-203 | deleting id 1 succeeds once; then find(1) fails with NotFound(GET, 1) and a second delete fails with NotFound(DELETE, 1) |
| Scenarios.MissingId | src/test/java/com/example/Mini/Expense/Tracker/integrationTesting/IntegrationTest.java:171-184 | on an empty table find, update and delete by any id fail with NotFound of their own request kind, and the table stays empty |
| Scenarios.Store | src/test/java/com/example/Mini/Expense/Tracker/integrationTesting/IntegrationTest.java:241 | storing a valid new expense appends it under the next id |
| Scenarios.FilterExample | src/test/java/com/example/Mini/Expense/Tracker/integrationTesting/IntegrationTest.java:218-270 | over the four test rows the March FOOD search returns Lunch and then Dinner, and the March GROCERY search returns nothing |
| Scenarios.FilterScenario | src/test/java/com/example/Mini/Expense/Tracker/integrationTesting/IntegrationTest.java:218-305 | storing the four test expenses and searching March for FOOD gives exactly the Lunch and Dinner dtos with ids 3 and 4, in that order; searching for GROCERY gives the empty list |
| Scenarios.StoreFilterTable | src/test/java/com/example/Mini/Expense/Tracker/integrationTesting/IntegrationTest.java:238-241 | saving the four test expenses into an empty table gives rows with ids 1 to 4 in that order |
| Scenarios.MarchFoodSearch | src/test/java/com/example/Mini/Expense/Tracker/integrationTesting/IntegrationTest.java:243-270 | the service's March FOOD search over the four rows gives the Lunch and Dinner dtos, in that order |
| Scenarios.MarchGrocerySearch | src/test/java/com/example/Mini/Expense/Tracker/integrationTesting/IntegrationTest.java:297-305 | the service's March GROCERY search over the four rows gives the empty list |
| Scenarios.SummaryExample | src/test/java/com/example/Mini/Expense/Tracker/integrationTesting/IntegrationTest.java:307-355 | over the five test rows the March 2024 summary is exactly MISC 163.00 then TRAVEL 3754.00; the February row is left out |
| Scenarios.SummaryScenario | src/test/java/com/example/Mini/Expense/Tracker/integrationTesting/IntegrationTest.java:307-355 | storing the five test expenses and asking the service for March 2024 gives exactly two lines, MISC 16300 cents then TRAVEL 375400 cents |
| Scenarios.StoreSummaryTable | src/test/java/com/example/Mini/Expense/Tracker/integrationTesting/IntegrationTest.java:331-334 | saving the five test expenses into an empty table gives rows with ids 1 to 5 in that order |
| Scenarios.MarchSummary | src/test/java/com/example/Mini/Expense/Tracker/integrationTesting/IntegrationTest.java:336-344 | the service's March 2024 summary over the five rows gives the MISC and TRAVEL lines with their totals |
| Scenarios.SummaryMonth | src/test/java/com/example/Mini/Expense/Tracker/integrationTesting/IntegrationTest.java:307-334 | the March 2024 selection over the five test rows drops the February row and keeps the other four in order |
| Scenarios.SummaryTotals | src/test/java/com/example/Mini/Expense/Tracker/integrationTesting/IntegrationTest.java:351-352 | in March the MISC total is 126 + 37 and the TRAVEL total is 55 + 3699, in cents |
| Scenarios.SummaryGroups | src/test/java/com/example/Mini/Expense/Tracker/integrationTesting/IntegrationTest.java:346-350 | in March only MISC and TRAVEL have rows |
| Scenarios.GroupsByName | src/main/java/com/example/Mini/Expense/Tracker/repository/ExpenseRepository.java:30-35 | when only MISC and TRAVEL have rows, grouping in name order gives exactly their two rows, MISC first |

## Left out

- The HTTP controller (`ExpenseController`): routing, parameter binding, JSON and the mapping of exceptions to 404/201/200 status codes. The service's `NotFound(kind, id)` error keeps the request kind and id that the exception carries.
- The persistence engine (Spring Data JPA, Hibernate, PostgreSQL), Jackson serialisation, Lombok code generation and Spring dependency injection. The table is an in-memory sequence. The Bean Validation and column constraints become `SatisfiesConstraints`, checked when the entity is saved.
- The text of the not-found messages: the error keeps only the request kind and the id.
- Decimal arithmetic: amounts are exact integer cents. The tests build some amounts from doubles (`new BigDecimal(125.99)`); the model uses the scale-2 value that the column stores.
- Null fields. A Dafny value is never null, so the non-null column constraints always hold and a null category cannot be expressed. A null category sent by a caller is not modelled.
- Text that is not a category name cannot reach the queries, because the service passes `category.name()`. Only `Categories.ValueOf` deals with other text.
- The 64-bit width of `long` ids. Ids are unbounded integers, and running out of ids is not modelled.
- Identity values used up by rejected inserts. The database may advance the sequence on a failed insert; the model leaves `nextId` unchanged when `save` rejects an entity.
- Physical row order after updates. The model keeps rows in ascending id order (insertion order) and overwrites rows in place.
- Repository.CategorySumRows: the query has no `ORDER BY`. The model returns groups in ascending category-name order, the order the tests expect. Names are compared by character code, which is the database collation for these upper-case ASCII names.
- Repository.SaveRecord: saving an entity with a nonzero id that is not stored is modelled as an insert under a fresh id, as a JPA merge of a detached entity does. The service never does this, because it always checks the id first or passes id 0.
- The source of the `ExpenseCategory` enum is not part of this model. Its five values are the ones the tests use.
- Dates: `LocalDate`'s year range limit (±999999999) is not modelled; any integer year is allowed.
- Concurrency: there is none in the code, and interleaved requests are not modelled.
