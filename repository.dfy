/**
 * The expenses table and the storage operations the service relies on: the
 * inherited save / findById / deleteById on an id-keyed table with an
 * IDENTITY id column, and the two declared native queries.
 *
 * The table is a sequence of rows in storage order.  Ids are handed out in
 * increasing order and rows stay in place when updated, so storage order is
 * ascending id order.
 */
module Repository {
  import opened Wrappers
  import opened Dates
  import opened Categories
  import opened Entity

  /** Why storage refused a write: a column or validation constraint failed. */
  datatype StoreError = ConstraintViolation

  /** One row of the monthly summary query: a category name and the sum of its amounts. */
  datatype SumRow = SumRow(category: string, total: int)

  /** The table: its rows in storage order and the next value of the identity column. */
  datatype Table = Table(rows: seq<ExpenseRecord>, nextId: int)

  /** The table right after `TRUNCATE ... RESTART IDENTITY`: no rows, and the next id is 1. */
  const EmptyTable: Table := Table([], 1)

  predicate IdsAscending(rows: seq<ExpenseRecord>) {
    forall i, j :: 0 <= i < j < |rows| ==> rows[i].id < rows[j].id
  }

  /**
   * The table invariant: one row per id, rows in ascending id order, every id
   * one that the identity column has already handed out, and every row within
   * the entity's constraints.
   */
  predicate TableValid(t: Table) {
    && t.nextId >= 1
    && IdsAscending(t.rows)
    && forall x :: x in t.rows ==> 1 <= x.id < t.nextId && SatisfiesConstraints(x)
  }

  // ---------------------------------------------------------------------------
  // Selection

  /** SQL `WHERE p`: the rows satisfying `p`, in storage order. */
  function Where(rows: seq<ExpenseRecord>, p: ExpenseRecord -> bool): (r: seq<ExpenseRecord>)
    ensures forall x :: x in r <==> x in rows && p(x)
    ensures |r| <= |rows|
  {
    if rows == [] then []
    else (if p(rows[0]) then [rows[0]] else []) + Where(rows[1..], p)
  }

  /** The rows after the first of an ascending table are ascending and all come after it. */
  lemma AscendingTail(rows: seq<ExpenseRecord>)
    requires IdsAscending(rows) && rows != []
    ensures IdsAscending(rows[1..])
    ensures forall y :: y in rows[1..] ==> rows[0].id < y.id
  {
    var rest := rows[1..];
    forall i, j | 0 <= i < j < |rest| ensures rest[i].id < rest[j].id {
      assert rest[i] == rows[i + 1] && rest[j] == rows[j + 1];
    }
    forall y | y in rest ensures rows[0].id < y.id {
      var k :| 0 <= k < |rest| && rest[k] == y;
      assert rows[k + 1] == y;
    }
  }

  lemma AscendingCons(x: ExpenseRecord, rest: seq<ExpenseRecord>)
    requires IdsAscending(rest)
    requires forall y :: y in rest ==> x.id < y.id
    ensures IdsAscending([x] + rest)
  {
    var r := [x] + rest;
    forall i, j | 0 <= i < j < |r| ensures r[i].id < r[j].id {
      assert r[j] == rest[j - 1] && r[j] in rest;
      if i > 0 {
        assert r[i] == rest[i - 1];
      }
    }
  }

  /** Selecting from an ascending table yields an ascending result: storage order is kept. */
  lemma {:induction false} WhereAscending(rows: seq<ExpenseRecord>, p: ExpenseRecord -> bool)
    requires IdsAscending(rows)
    ensures IdsAscending(Where(rows, p))
  {
    if rows != [] {
      AscendingTail(rows);
      WhereAscending(rows[1..], p);
      if p(rows[0]) {
        AscendingCons(rows[0], Where(rows[1..], p));
      } else {
        assert Where(rows, p) == Where(rows[1..], p);
      }
    }
  }

  /** Adding a row at the end adds it at the end of every selection it satisfies. */
  lemma {:induction false} WhereAppend(rows: seq<ExpenseRecord>, x: ExpenseRecord, p: ExpenseRecord -> bool)
    ensures Where(rows + [x], p) == Where(rows, p) + (if p(x) then [x] else [])
  {
    if rows == [] {
      assert rows + [x] == [x] && [x][1..] == [];
    } else {
      var head := if p(rows[0]) then [rows[0]] else [];
      var last := if p(x) then [x] else [];
      assert (rows + [x])[0] == rows[0];
      assert (rows + [x])[1..] == rows[1..] + [x];
      WhereAppend(rows[1..], x, p);
      calc {
        Where(rows + [x], p);
        head + Where(rows[1..] + [x], p);
        head + (Where(rows[1..], p) + last);
        (head + Where(rows[1..], p)) + last;
        Where(rows, p) + last;
      }
    }
  }

  // ---------------------------------------------------------------------------
  // Point operations: findById, save, deleteById

  /** findById on the rows: the row with that id, if there is one. */
  function Lookup(rows: seq<ExpenseRecord>, id: int): (r: Option<ExpenseRecord>)
    ensures r.Some? ==> r.value in rows && r.value.id == id
    ensures r.None? ==> forall x :: x in rows ==> x.id != id
  {
    if rows == [] then None
    else if rows[0].id == id then Some(rows[0])
    else Lookup(rows[1..], id)
  }

  /** In a table with one row per id, looking up a stored row's id finds that row. */
  lemma {:induction false} LookupStored(rows: seq<ExpenseRecord>, x: ExpenseRecord)
    requires IdsAscending(rows)
    requires x in rows
    ensures Lookup(rows, x.id) == Some(x)
  {
    if rows[0] != x {
      AscendingTail(rows);
      assert x in rows[1..];
      LookupStored(rows[1..], x);
    }
  }

  /** The rows with the row whose id is `x.id` overwritten by `x` (a merge into an existing row). */
  function Replace(rows: seq<ExpenseRecord>, x: ExpenseRecord): seq<ExpenseRecord> {
    seq(|rows|, i requires 0 <= i < |rows| => if rows[i].id == x.id then x else rows[i])
  }

  /** `id <> :id` */
  function OtherThan(id: int): ExpenseRecord -> bool {
    (y: ExpenseRecord) => y.id != id
  }

  /** deleteById on the rows: every row with that id is gone. */
  function Remove(rows: seq<ExpenseRecord>, id: int): seq<ExpenseRecord> {
    Where(rows, OtherThan(id))
  }

  /** save overwrites a stored row when the entity carries the id of one. */
  predicate IsUpdate(t: Table, x: ExpenseRecord) {
    x.id != UnassignedId && Lookup(t.rows, x.id).Some?
  }

  /**
   * The row that save writes: the entity itself when it overwrites a stored
   * row, otherwise a copy under the next identity value.
   */
  function SavedRecord(t: Table, x: ExpenseRecord): ExpenseRecord {
    if IsUpdate(t, x) then x else x.(id := t.nextId)
  }

  /** The table after a save of `x` that passed the constraints. */
  function SaveRecord(t: Table, x: ExpenseRecord): Table {
    if IsUpdate(t, x) then t.(rows := Replace(t.rows, x))
    else Table(t.rows + [SavedRecord(t, x)], t.nextId + 1)
  }

  lemma {:induction false} LookupAfterReplace(rows: seq<ExpenseRecord>, x: ExpenseRecord, k: int)
    ensures Lookup(Replace(rows, x), k) ==
            if k == x.id && Lookup(rows, k).Some? then Some(x) else Lookup(rows, k)
  {
    if rows != [] {
      assert Replace(rows, x)[1..] == Replace(rows[1..], x);
      LookupAfterReplace(rows[1..], x, k);
    }
  }

  lemma {:induction false} LookupAfterRemove(rows: seq<ExpenseRecord>, id: int, k: int)
    ensures Lookup(Remove(rows, id), k) == if k == id then None else Lookup(rows, k)
  {
    if rows != [] && k != id {
      LookupAfterRemove(rows[1..], id, k);
      var tail := Remove(rows[1..], id);
      if rows[0].id != id {
        assert Remove(rows, id) == [rows[0]] + tail;
        assert ([rows[0]] + tail)[1..] == tail;
      } else {
        assert Remove(rows, id) == tail;
      }
    }
  }

  lemma {:induction false} LookupAfterAppend(rows: seq<ExpenseRecord>, x: ExpenseRecord, k: int)
    requires forall y :: y in rows ==> y.id != x.id
    ensures Lookup(rows + [x], k) == if k == x.id then Some(x) else Lookup(rows, k)
  {
    if rows == [] {
      assert [x][1..] == [];
    } else {
      assert (rows + [x])[1..] == rows[1..] + [x];
      LookupAfterAppend(rows[1..], x, k);
    }
  }

  /** save keeps the table invariant. */
  lemma SaveKeepsValid(t: Table, x: ExpenseRecord)
    requires TableValid(t)
    requires SatisfiesConstraints(x)
    ensures TableValid(SaveRecord(t, x))
  {
    if IsUpdate(t, x) {
      ReplaceKeepsValid(t, x);
    } else {
      AppendKeepsValid(t, x.(id := t.nextId));
    }
  }

  lemma ReplaceKeepsValid(t: Table, x: ExpenseRecord)
    requires TableValid(t)
    requires SatisfiesConstraints(x) && Lookup(t.rows, x.id).Some?
    ensures TableValid(t.(rows := Replace(t.rows, x)))
  {
    var r := Replace(t.rows, x);
    assert forall i :: 0 <= i < |t.rows| ==> r[i].id == t.rows[i].id;
    forall y | y in r ensures 1 <= y.id < t.nextId && SatisfiesConstraints(y) {
      var i :| 0 <= i < |r| && r[i] == y;
      assert t.rows[i] in t.rows;
    }
  }

  lemma AppendKeepsValid(t: Table, x: ExpenseRecord)
    requires TableValid(t)
    requires SatisfiesConstraints(x) && x.id == t.nextId
    ensures TableValid(Table(t.rows + [x], t.nextId + 1))
  {
    var r := t.rows + [x];
    forall i, j | 0 <= i < j < |r| ensures r[i].id < r[j].id {
      if j == |t.rows| {
        assert r[i] == t.rows[i] && t.rows[i] in t.rows;
      } else {
        assert r[i] == t.rows[i] && r[j] == t.rows[j];
      }
    }
  }

  /**
   * What save does to lookups: the saved row is found under its id, every
   * other id keeps what it had, and a fresh id is one no row has had since the
   * identity column produced it (ids are never reused).
   */
  lemma LookupAfterSave(t: Table, x: ExpenseRecord, k: int)
    requires TableValid(t)
    ensures Lookup(SaveRecord(t, x).rows, SavedRecord(t, x).id) == Some(SavedRecord(t, x))
    ensures k != SavedRecord(t, x).id ==> Lookup(SaveRecord(t, x).rows, k) == Lookup(t.rows, k)
    ensures !IsUpdate(t, x) ==> SavedRecord(t, x).id == t.nextId && Lookup(t.rows, t.nextId) == None
    ensures SaveRecord(t, x).nextId >= t.nextId
  {
    var s := SavedRecord(t, x);
    if IsUpdate(t, x) {
      LookupAfterReplace(t.rows, x, s.id);
      LookupAfterReplace(t.rows, x, k);
    } else {
      LookupAfterAppend(t.rows, s, s.id);
      LookupAfterAppend(t.rows, s, k);
    }
  }

  /** deleteById keeps the table invariant. */
  lemma DeleteKeepsValid(t: Table, id: int)
    requires TableValid(t)
    ensures TableValid(t.(rows := Remove(t.rows, id)))
  {
    WhereAscending(t.rows, OtherThan(id));
  }

  // ---------------------------------------------------------------------------
  // The filtered-search query

  /** `category = :categoryName AND date BETWEEN :from AND :to` on one row. */
  predicate SearchMatches(x: ExpenseRecord, from: LocalDate, to: LocalDate, categoryName: string) {
    Name(x.category) == categoryName && Between(x.date, from, to)
  }

  function SearchFilter(from: LocalDate, to: LocalDate, categoryName: string): ExpenseRecord -> bool {
    (x: ExpenseRecord) => SearchMatches(x, from, to, categoryName)
  }

  /** The filtered-search query, in storage order. */
  function FilterRows(rows: seq<ExpenseRecord>, from: LocalDate, to: LocalDate, categoryName: string): seq<ExpenseRecord> {
    Where(rows, SearchFilter(from, to, categoryName))
  }

  /**
   * The filtered search returns exactly the stored rows of that category dated
   * from `from` to `to` inclusive, in ascending id (storage) order; when no row
   * matches it returns the empty list.
   */
  lemma FilterRowsCorrect(t: Table, from: LocalDate, to: LocalDate, c: ExpenseCategory)
    requires TableValid(t)
    ensures forall x :: x in FilterRows(t.rows, from, to, Name(c)) <==>
                        x in t.rows && x.category == c && AtOrBefore(from, x.date) && AtOrBefore(x.date, to)
    ensures IdsAscending(FilterRows(t.rows, from, to, Name(c)))
    ensures FilterRows(t.rows, from, to, Name(c)) == [] <==>
            forall x :: x in t.rows ==> !(x.category == c && Between(x.date, from, to))
  {
    var r := FilterRows(t.rows, from, to, Name(c));
    forall x ensures SearchMatches(x, from, to, Name(c)) <==> x.category == c && Between(x.date, from, to) {
      NameInjective(x.category, c);
    }
    WhereAscending(t.rows, SearchFilter(from, to, Name(c)));
    if r != [] {
      assert r[0] in r;
    }
  }

  // ---------------------------------------------------------------------------
  // The monthly category-sum query

  /** `YEAR(date) = :year AND MONTH(date) = :month`. */
  predicate InMonth(d: LocalDate, year: int, month: int) {
    d.year == year && d.month == month
  }

  function MonthFilter(year: int, month: int): ExpenseRecord -> bool {
    (x: ExpenseRecord) => InMonth(x.date, year, month)
  }

  function MonthRows(rows: seq<ExpenseRecord>, year: int, month: int): seq<ExpenseRecord> {
    Where(rows, MonthFilter(year, month))
  }

  function SumAmounts(rows: seq<ExpenseRecord>): int {
    if rows == [] then 0 else rows[0].amount + SumAmounts(rows[1..])
  }

  /** `category = :c` */
  function OfCategory(c: ExpenseCategory): ExpenseRecord -> bool {
    (x: ExpenseRecord) => x.category == c
  }

  /** `SUM(amount)` over the rows of one category. */
  function Total(rows: seq<ExpenseRecord>, c: ExpenseCategory): int {
    SumAmounts(Where(rows, OfCategory(c)))
  }

  /** The group of category `c` is not empty. */
  predicate HasCategory(rows: seq<ExpenseRecord>, c: ExpenseCategory) {
    exists x :: x in rows && x.category == c
  }

  /** One summary row per category of `cats` that has a row, in the order of `cats`. */
  function GroupSums(rows: seq<ExpenseRecord>, cats: seq<ExpenseCategory>): seq<SumRow> {
    if cats == [] then []
    else (if HasCategory(rows, cats[0]) then [SumRow(Name(cats[0]), Total(rows, cats[0]))] else [])
         + GroupSums(rows, cats[1..])
  }

  /** The category-sum query: `GROUP BY category` over one month, in ascending order of category name. */
  function CategorySumRows(rows: seq<ExpenseRecord>, year: int, month: int): seq<SumRow> {
    GroupSums(MonthRows(rows, year, month), ByName)
  }

  predicate NamesAscending(r: seq<SumRow>) {
    forall i, j :: 0 <= i < j < |r| ==> TextBefore(r[i].category, r[j].category)
  }

  /** Each summary row comes from a category of `cats` that has rows, and carries that category's total. */
  lemma {:induction false} GroupSumsSound(rows: seq<ExpenseRecord>, cats: seq<ExpenseCategory>)
    ensures forall s :: s in GroupSums(rows, cats) ==>
              exists c :: c in cats && HasCategory(rows, c) && s == SumRow(Name(c), Total(rows, c))
  {
    if cats != [] {
      GroupSumsSound(rows, cats[1..]);
      forall s | s in GroupSums(rows, cats)
        ensures exists c :: c in cats && HasCategory(rows, c) && s == SumRow(Name(c), Total(rows, c))
      {
        if s !in GroupSums(rows, cats[1..]) {
          assert HasCategory(rows, cats[0]) && s == SumRow(Name(cats[0]), Total(rows, cats[0]));
        } else {
          var c :| c in cats[1..] && HasCategory(rows, c) && s == SumRow(Name(c), Total(rows, c));
          assert c in cats;
        }
      }
    }
  }

  /** Every category of `cats` that has rows gets its summary row. */
  lemma {:induction false} GroupSumsComplete(rows: seq<ExpenseRecord>, cats: seq<ExpenseCategory>, c: ExpenseCategory)
    requires c in cats && HasCategory(rows, c)
    ensures SumRow(Name(c), Total(rows, c)) in GroupSums(rows, cats)
  {
    if cats[0] != c {
      assert c in cats[1..];
      GroupSumsComplete(rows, cats[1..], c);
    }
  }

  /** Every group row is named after a category of `cats`, so it comes after any name before all of them. */
  lemma GroupSumsAfter(rows: seq<ExpenseRecord>, cats: seq<ExpenseCategory>, name: string)
    requires forall c :: c in cats ==> TextBefore(name, Name(c))
    ensures forall s :: s in GroupSums(rows, cats) ==> TextBefore(name, s.category)
  {
    GroupSumsSound(rows, cats);
  }

  lemma NamesAscendingCons(head: SumRow, tail: seq<SumRow>)
    requires NamesAscending(tail)
    requires forall s :: s in tail ==> TextBefore(head.category, s.category)
    ensures NamesAscending([head] + tail)
  {
    var r := [head] + tail;
    forall i, j | 0 <= i < j < |r| ensures TextBefore(r[i].category, r[j].category) {
      assert r[j] == tail[j - 1] && r[j] in tail;
      if i > 0 {
        assert r[i] == tail[i - 1];
      }
    }
  }

  /** Summary rows follow the order of `cats`. */
  lemma {:induction false} GroupSumsAscending(rows: seq<ExpenseRecord>, cats: seq<ExpenseCategory>)
    requires forall i, j :: 0 <= i < j < |cats| ==> TextBefore(Name(cats[i]), Name(cats[j]))
    ensures NamesAscending(GroupSums(rows, cats))
  {
    if cats != [] {
      var rest := cats[1..];
      forall i, j | 0 <= i < j < |rest| ensures TextBefore(Name(rest[i]), Name(rest[j])) {
        assert rest[i] == cats[i + 1] && rest[j] == cats[j + 1];
      }
      GroupSumsAscending(rows, rest);
      if HasCategory(rows, cats[0]) {
        forall c | c in rest ensures TextBefore(Name(cats[0]), Name(c)) {
          var k :| 0 <= k < |rest| && rest[k] == c;
          assert cats[k + 1] == c;
        }
        GroupSumsAfter(rows, rest, Name(cats[0]));
        NamesAscendingCons(SumRow(Name(cats[0]), Total(rows, cats[0])), GroupSums(rows, rest));
      }
    }
  }

  /**
   * The category-sum query returns one row per category that has at least one
   * row dated in that year and month, carrying the exact sum of those rows'
   * amounts; categories without such a row are omitted; the rows come in
   * strictly ascending order of category name, so no category appears twice.
   */
  lemma CategorySumCorrect(rows: seq<ExpenseRecord>, year: int, month: int)
    ensures forall s :: s in CategorySumRows(rows, year, month) ==>
              exists c :: HasCategory(MonthRows(rows, year, month), c) &&
                          s == SumRow(Name(c), Total(MonthRows(rows, year, month), c))
    ensures forall c :: HasCategory(MonthRows(rows, year, month), c) <==>
              SumRow(Name(c), Total(MonthRows(rows, year, month), c)) in CategorySumRows(rows, year, month)
    ensures forall c :: HasCategory(MonthRows(rows, year, month), c) <==>
              exists x :: x in rows && x.category == c && InMonth(x.date, year, month)
    ensures NamesAscending(CategorySumRows(rows, year, month))
  {
    var m := MonthRows(rows, year, month);
    ByNameOrdered();
    GroupSumsSound(m, ByName);
    GroupSumsAscending(m, ByName);
    forall c ensures HasCategory(m, c) <==> SumRow(Name(c), Total(m, c)) in CategorySumRows(rows, year, month) {
      if HasCategory(m, c) {
        GroupSumsComplete(m, ByName, c);
      } else if SumRow(Name(c), Total(m, c)) in CategorySumRows(rows, year, month) {
        var c' :| c' in ByName && HasCategory(m, c') && SumRow(Name(c), Total(m, c)) == SumRow(Name(c'), Total(m, c'));
        NameInjective(c, c');
      }
    }
  }

  lemma {:induction false} SumAmountsAtLeast(rows: seq<ExpenseRecord>)
    requires forall x :: x in rows ==> x.amount >= MinAmountCents
    ensures SumAmounts(rows) >= MinAmountCents * |rows|
  {
    if rows != [] {
      assert rows[0] in rows;
      SumAmountsAtLeast(rows[1..]);
    }
  }

  lemma {:induction false} SumAmountsAppend(rows: seq<ExpenseRecord>, x: ExpenseRecord)
    ensures SumAmounts(rows + [x]) == SumAmounts(rows) + x.amount
  {
    if rows == [] {
      assert [x][1..] == [];
    } else {
      assert (rows + [x])[1..] == rows[1..] + [x];
      SumAmountsAppend(rows[1..], x);
    }
  }

  /** Over a valid table every summary total is at least the minimum amount, 1.00. */
  lemma CategorySumTotalsAtLeastMinimum(t: Table, year: int, month: int)
    requires TableValid(t)
    ensures forall s :: s in CategorySumRows(t.rows, year, month) ==> s.total >= MinAmountCents
  {
    CategorySumCorrect(t.rows, year, month);
    var m := MonthRows(t.rows, year, month);
    forall s | s in CategorySumRows(t.rows, year, month) ensures s.total >= MinAmountCents {
      var c :| HasCategory(m, c) && s == SumRow(Name(c), Total(m, c));
      var g := Where(m, OfCategory(c));
      var x :| x in m && x.category == c;
      assert x in g;
      SumAmountsAtLeast(g);
    }
  }

  /**
   * Inserting a row dated in a month adds exactly its amount to its category's
   * total for that month and leaves the other categories' totals alone.
   */
  lemma TotalAfterInsert(rows: seq<ExpenseRecord>, x: ExpenseRecord, year: int, month: int, c: ExpenseCategory)
    ensures Total(MonthRows(rows + [x], year, month), c) ==
            Total(MonthRows(rows, year, month), c) +
            (if x.category == c && InMonth(x.date, year, month) then x.amount else 0)
  {
    WhereAppend(rows, x, MonthFilter(year, month));
    var m := MonthRows(rows, year, month);
    if InMonth(x.date, year, month) {
      assert MonthRows(rows + [x], year, month) == m + [x];
      WhereAppend(m, x, OfCategory(c));
      if x.category == c {
        SumAmountsAppend(Where(m, OfCategory(c)), x);
      } else {
        assert Where(m + [x], OfCategory(c)) == Where(m, OfCategory(c)) + [];
        assert Where(m, OfCategory(c)) + [] == Where(m, OfCategory(c));
      }
    } else {
      assert MonthRows(rows + [x], year, month) == m + [];
      assert m + [] == m;
    }
  }

  // ---------------------------------------------------------------------------
  // The repository object

  class ExpenseRepository {
    var rows: seq<ExpenseRecord>
    var nextId: int

    function Contents(): Table
      reads this
    {
      Table(rows, nextId)
    }

    ghost predicate Valid()
      reads this
    {
      TableValid(Contents())
    }

    /** A freshly created (or reset) table: empty, and the first id handed out will be 1. */
    constructor ()
      ensures Valid() && Contents() == EmptyTable
    {
      rows := [];
      nextId := 1;
    }

    /** `deleteAllInBatch` followed by `TRUNCATE TABLE expenses RESTART IDENTITY`. */
    method Reset()
      modifies this
      ensures Valid() && Contents() == EmptyTable
    {
      rows := [];
      nextId := 1;
    }

    /**
     * save: rejects an entity that breaks a constraint and changes nothing;
     * otherwise overwrites the row with the entity's id if there is one, or
     * inserts a row under the next identity value.  A new entity (id still
     * unassigned) receives its id, as a persisted JPA entity does.
     */
    method Save(e: Expense) returns (r: Result<ExpenseRecord, StoreError>)
      requires Valid()
      modifies this, e
      ensures Valid()
      ensures old(SatisfiesConstraints(e.State())) ==>
                && r == Ok(SavedRecord(old(Contents()), old(e.State())))
                && Contents() == SaveRecord(old(Contents()), old(e.State()))
                && e.State() == if old(e.id) == UnassignedId then r.value else old(e.State())
      ensures !old(SatisfiesConstraints(e.State())) ==>
                r == Err(ConstraintViolation) && Contents() == old(Contents()) && e.State() == old(e.State())
    {
      var x := e.State();
      if !SatisfiesConstraints(x) {
        return Err(ConstraintViolation);
      }
      var saved := SavedRecord(Contents(), x);
      SaveKeepsValid(Contents(), x);
      if IsUpdate(Contents(), x) {
        rows := Replace(rows, x);
      } else {
        rows := rows + [saved];
        nextId := nextId + 1;
        if x.id == UnassignedId {
          e.SetId(saved.id);
        }
      }
      r := Ok(saved);
    }

    /** findById: a new entity object loaded from the row with that id, if there is one. */
    method FindById(id: int) returns (r: Option<Expense>)
      ensures Lookup(rows, id).None? ==> r.None?
      ensures Lookup(rows, id).Some? ==>
                r.Some? && fresh(r.value) && r.value.State() == Lookup(rows, id).value
    {
      var found := Lookup(rows, id);
      if found.Some? {
        var x := found.value;
        var e := new Expense.WithId(x.id, x.description, x.amount, x.category, x.date);
        r := Some(e);
      } else {
        r := None;
      }
    }

    /** deleteById: removes the row with that id; a missing id is ignored. */
    method DeleteById(id: int)
      requires Valid()
      modifies this
      ensures Valid()
      ensures Contents() == old(Contents()).(rows := Remove(old(rows), id))
    {
      DeleteKeepsValid(Contents(), id);
      rows := Remove(rows, id);
    }

    /** The declared filteredSearch query; it reads the table and changes nothing. */
    function FilteredSearch(from: LocalDate, to: LocalDate, categoryName: string): seq<ExpenseRecord>
      reads this
    {
      FilterRows(rows, from, to, categoryName)
    }

    /** The declared categorySum query; it reads the table and changes nothing. */
    function CategorySum(year: int, month: int): seq<SumRow>
      reads this
    {
      CategorySumRows(rows, year, month)
    }
  }
}
