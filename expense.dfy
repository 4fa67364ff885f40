/**
 * The persisted expense entity.  Amounts are integers in cents: the amount
 * column has scale 2, so every stored amount is a whole number of cents.
 */
module Entity {
  import opened Dates
  import opened Categories

  /** Column length of `description`. */
  const MaxDescriptionLength: nat := 100

  /** `@Min(1)` on an amount of scale 2: one unit is 100 cents. */
  const MinAmountCents: int := 100

  /** The value of an id field that storage has not assigned yet (a Java `long` defaults to 0). */
  const UnassignedId: int := 0

  /** The five column values of one expense: the state of an Expense object or of one table row. */
  datatype ExpenseRecord = ExpenseRecord(
    id: int,
    description: string,
    amount: int,
    category: ExpenseCategory,
    date: LocalDate)

  /**
   * The column and validation constraints of the entity: a description of at
   * most 100 characters and an amount of at least 1.00.  Non-null description,
   * amount and date hold of every Dafny value.
   */
  predicate SatisfiesConstraints(x: ExpenseRecord) {
    |x.description| <= MaxDescriptionLength && x.amount >= MinAmountCents
  }

  /** The JPA entity, whose fields the service overwrites through its setters. */
  class Expense {
    var id: int
    var description: string
    var amount: int
    var category: ExpenseCategory
    var date: LocalDate

    /** The values of the five fields. */
    function State(): ExpenseRecord
      reads this
    {
      ExpenseRecord(id, description, amount, category, date)
    }

    /** The four-argument constructor: the id is left for storage to assign. */
    constructor (description: string, amount: int, category: ExpenseCategory, date: LocalDate)
      ensures State() == ExpenseRecord(UnassignedId, description, amount, category, date)
    {
      this.id := UnassignedId;
      this.description := description;
      this.amount := amount;
      this.category := category;
      this.date := date;
    }

    /** The all-arguments constructor, used when a stored row is loaded. */
    constructor WithId(id: int, description: string, amount: int, category: ExpenseCategory, date: LocalDate)
      ensures State() == ExpenseRecord(id, description, amount, category, date)
    {
      this.id := id;
      this.description := description;
      this.amount := amount;
      this.category := category;
      this.date := date;
    }

    method SetId(id: int)
      modifies this
      ensures State() == old(State()).(id := id)
    {
      this.id := id;
    }

    method SetDescription(description: string)
      modifies this
      ensures State() == old(State()).(description := description)
    {
      this.description := description;
    }

    method SetAmount(amount: int)
      modifies this
      ensures State() == old(State()).(amount := amount)
    {
      this.amount := amount;
    }

    method SetCategory(category: ExpenseCategory)
      modifies this
      ensures State() == old(State()).(category := category)
    {
      this.category := category;
    }

    method SetDate(date: LocalDate)
      modifies this
      ensures State() == old(State()).(date := date)
    {
      this.date := date;
    }
  }
}
