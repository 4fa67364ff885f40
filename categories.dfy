/**
 * The closed set of expense categories.  The entity persists a category as its
 * enum name (EnumType.STRING) and the queries compare categories by that name.
 */
module Categories {
  import opened Wrappers

  datatype ExpenseCategory = FOOD | GROCERY | TRAVEL | ACADEMIC | MISC

  /** Enum.name(): the text stored in the category column. */
  function Name(c: ExpenseCategory): string {
    match c
    case FOOD => "FOOD"
    case GROCERY => "GROCERY"
    case TRAVEL => "TRAVEL"
    case ACADEMIC => "ACADEMIC"
    case MISC => "MISC"
  }

  /** Enum.valueOf(): reads a stored name back; fails on any other text. */
  function ValueOf(s: string): (r: Option<ExpenseCategory>)
    ensures r.Some? ==> Name(r.value) == s
    ensures r.None? ==> forall c :: Name(c) != s
  {
    if s == "FOOD" then Some(FOOD)
    else if s == "GROCERY" then Some(GROCERY)
    else if s == "TRAVEL" then Some(TRAVEL)
    else if s == "ACADEMIC" then Some(ACADEMIC)
    else if s == "MISC" then Some(MISC)
    else None
  }

  /** A category survives the round trip through its stored name. */
  lemma ValueOfName(c: ExpenseCategory)
    ensures ValueOf(Name(c)) == Some(c)
  {
  }

  /** Comparing by name is comparing by category. */
  lemma NameInjective(a: ExpenseCategory, b: ExpenseCategory)
    ensures Name(a) == Name(b) <==> a == b
  {
  }

  /** Strict lexicographic order on text, by character code. */
  predicate TextBefore(a: string, b: string) {
    if |a| == 0 then |b| > 0
    else |b| > 0 && (a[0] < b[0] || (a[0] == b[0] && TextBefore(a[1..], b[1..])))
  }

  lemma {:induction false} TextBeforeIrreflexive(a: string)
    ensures !TextBefore(a, a)
  {
    if |a| > 0 {
      TextBeforeIrreflexive(a[1..]);
    }
  }

  /** Every category, in ascending order of name. */
  const ByName: seq<ExpenseCategory> := [ACADEMIC, FOOD, GROCERY, MISC, TRAVEL]

  lemma ByNameOrdered()
    ensures forall c :: c in ByName
    ensures forall i, j :: 0 <= i < j < |ByName| ==> TextBefore(Name(ByName[i]), Name(ByName[j]))
  {
    assert Name(ByName[0])[0] == 'A';
    assert Name(ByName[1])[0] == 'F';
    assert Name(ByName[2])[0] == 'G';
    assert Name(ByName[3])[0] == 'M';
    assert Name(ByName[4])[0] == 'T';
    forall c: ExpenseCategory ensures c in ByName {
      match c
      case ACADEMIC => assert ByName[0] == c;
      case FOOD => assert ByName[1] == c;
      case GROCERY => assert ByName[2] == c;
      case MISC => assert ByName[3] == c;
      case TRAVEL => assert ByName[4] == c;
    }
  }
}
