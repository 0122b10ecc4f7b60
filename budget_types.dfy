/** The shape of the budget record (src/types/budget.ts) and the
    well-formedness conditions that the type itself does not enforce. */
module BudgetTypes {

  datatype Option<+T> = None | Some(value: T)

  /** One logged spend; `note` is the optional field `note?`. */
  datatype Expense = Expense(id: string, amount: real, date: string, note: Option<string>)

  /** A spending bucket that owns its expenses in insertion order. */
  datatype Category = Category(id: string, name: string, allocation: real, expenses: seq<Expense>)

  /** The whole record held by the store: a salary and the ordered categories. */
  datatype BudgetData = BudgetData(salary: real, categories: seq<Category>)

  /** `Omit<Expense, 'id'>`: what a caller hands to addExpense. */
  datatype ExpenseDraft = ExpenseDraft(amount: real, date: string, note: Option<string>)

  /** `Partial<Category>`: a field that is `None` is absent from the update object. */
  datatype CategoryPatch = CategoryPatch(
    id: Option<string>, name: Option<string>, allocation: Option<real>, expenses: Option<seq<Expense>>)

  predicate HasCategoryId(cs: seq<Category>, id: string)
  {
    exists i :: 0 <= i < |cs| && cs[i].id == id
  }

  /** How many categories carry `id`; nothing in the type keeps this at most one. */
  function CountId(cs: seq<Category>, id: string): nat
  {
    if cs == [] then 0 else (if cs[0].id == id then 1 else 0) + CountId(cs[1..], id)
  }

  predicate UniqueCategoryIds(cs: seq<Category>)
  {
    forall i, j :: 0 <= i < j < |cs| ==> cs[i].id != cs[j].id
  }

  predicate UniqueExpenseIds(es: seq<Expense>)
  {
    forall i, j :: 0 <= i < j < |es| ==> es[i].id != es[j].id
  }

  predicate ExpenseIdInUse(cs: seq<Category>, eid: string)
  {
    exists i, j :: 0 <= i < |cs| && 0 <= j < |cs[i].expenses| && cs[i].expenses[j].id == eid
  }

  /** Expense ids are distinct and no amount is negative. The note plays no part. */
  predicate ExpensesWellFormed(es: seq<Expense>)
  {
    UniqueExpenseIds(es) && forall i :: 0 <= i < |es| ==> es[i].amount >= 0.0
  }

  predicate CategoryWellFormed(c: Category)
  {
    c.allocation >= 0.0 && ExpensesWellFormed(c.expenses)
  }

  /** The conditions the lemmas below assume of a record: distinct category ids,
      distinct expense ids within a category, and no negative salary, allocation
      or amount. Neither the record type nor the store enforces them. */
  predicate WellFormed(b: BudgetData)
  {
    && b.salary >= 0.0
    && UniqueCategoryIds(b.categories)
    && forall i :: 0 <= i < |b.categories| ==> CategoryWellFormed(b.categories[i])
  }

  /** The optional note is free: an expense is well-formed with a note exactly
      when it is well-formed without one. */
  lemma NoteIsOptional(es: seq<Expense>, k: nat, note: Option<string>)
    requires k < |es|
    ensures ExpensesWellFormed(es[k := es[k].(note := note)]) <==> ExpensesWellFormed(es)
  {
    var es' := es[k := es[k].(note := note)];
    assert forall i :: 0 <= i < |es| ==> es'[i].id == es[i].id && es'[i].amount == es[i].amount;
  }

  /** The type admits two categories with the same id, so uniqueness has to be
      a separate predicate. */
  lemma DuplicateIdsAreRepresentable(c: Category)
    ensures !UniqueCategoryIds([c, c])
    ensures !WellFormed(BudgetData(0.0, [c, c]))
  {
    assert [c, c][0].id == [c, c][1].id;
  }

  lemma {:induction false} CountIdZero(cs: seq<Category>, id: string)
    ensures CountId(cs, id) == 0 <==> !HasCategoryId(cs, id)
  {
    if cs != [] {
      CountIdZero(cs[1..], id);
      if HasCategoryId(cs[1..], id) {
        var i :| 0 <= i < |cs[1..]| && cs[1..][i].id == id;
        assert cs[i + 1].id == id;
      }
      if HasCategoryId(cs, id) && cs[0].id != id {
        var i :| 0 <= i < |cs| && cs[i].id == id;
        assert cs[1..][i - 1].id == id;
      }
    }
  }

  /** With distinct ids, an id that occurs occurs exactly once. */
  lemma {:induction false} CountIdUnique(cs: seq<Category>, id: string)
    requires UniqueCategoryIds(cs)
    requires HasCategoryId(cs, id)
    ensures CountId(cs, id) == 1
  {
    if cs[0].id == id {
      forall i | 0 <= i < |cs[1..]| ensures cs[1..][i].id != id {
        assert cs[1..][i] == cs[i + 1];
      }
      CountIdZero(cs[1..], id);
    } else {
      var i :| 0 <= i < |cs| && cs[i].id == id;
      assert cs[1..][i - 1].id == id;
      CountIdUnique(cs[1..], id);
    }
  }
}
