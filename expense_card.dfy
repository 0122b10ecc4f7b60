/** The per-category card of src/components/ExpenseCard.tsx: what it shows
    for one category and the two handlers that call the store. */
module ExpenseCard {
  import opened BudgetTypes
  import opened Sums
  import opened InputGuards
  import BudgetUpdates
  import BudgetContext

  function AmountOf(e: Expense): real
  {
    e.amount
  }

  /** `category.expenses.reduce((sum, exp) => sum + exp.amount, 0)`: the sum of
      the amounts of exactly this category's expenses. */
  function CategorySpent(c: Category): (r: real)
    ensures r == Sum(c.expenses, AmountOf)
  {
    ReduceIsSum(0.0, c.expenses, AmountOf);
    Reduce(0.0, c.expenses, AmountOf)
  }

  /** `category.allocation - totalSpent`; it is shown even when negative. */
  function CategoryRemaining(c: Category): (r: real)
    ensures r + Sum(c.expenses, AmountOf) == c.allocation
  {
    c.allocation - CategorySpent(c)
  }

  /** The colour switch on the remaining amount: shown as positive when it is
      not below zero. */
  predicate ShowsRemainingAsPositive(c: Category)
  {
    CategoryRemaining(c) >= 0.0
  }

  lemma CategorySpentNonNegative(c: Category)
    requires ExpensesWellFormed(c.expenses)
    ensures CategorySpent(c) >= 0.0
  {
    SumNonNegative(c.expenses, AmountOf);
  }

  /** Appending an expense adds exactly its amount to the spent total and takes
      it off the remaining one. */
  lemma AppendExpenseSpent(c: Category, e: Expense)
    ensures CategorySpent(c.(expenses := c.expenses + [e])) == CategorySpent(c) + e.amount
    ensures CategoryRemaining(c.(expenses := c.expenses + [e])) == CategoryRemaining(c) - e.amount
  {
    SumAppend(c.expenses, [e], AmountOf);
  }

  /** Nothing stops spending past the allocation: a well-formed record in which
      a category ends up with a negative remaining amount, from the default
      seed and one accepted expense. */
  lemma OverspendingIsShown(amount: real, now: string, newId: string)
    requires amount > 0.0
    ensures var b := BudgetUpdates.AddExpense(BudgetUpdates.DefaultBudget(), "1", ExpenseDraft(amount, now, None), newId);
            && WellFormed(b)
            && CategoryRemaining(b.categories[0]) == -amount
            && !ShowsRemainingAsPositive(b.categories[0])
  {
    var b0 := BudgetUpdates.DefaultBudget();
    var b := BudgetUpdates.AddExpense(b0, "1", ExpenseDraft(amount, now, None), newId);
    assert !ExpenseIdInUse(b0.categories, newId);
    BudgetUpdates.AddExpenseWellFormed(b0, "1", ExpenseDraft(amount, now, None), newId);
    AppendExpenseSpent(b0.categories[0], BudgetUpdates.NewExpense(ExpenseDraft(amount, now, None), newId));
    assert CategoryRemaining(b0.categories[0]) == 0.0;
  }

  /** handleAddExpense: a NaN or non-positive amount returns without a call;
      otherwise addExpense(category.id, { amount, date }) with no note, `now`
      standing for the current ISO timestamp and `newId` for the generated id. */
  method HandleAddExpense(store: BudgetContext.Store, category: Category, parsed: Option<real>,
                          now: string, newId: string)
    returns (added: bool)
    modifies store
    ensures added <==> AcceptsAmount(parsed)
    ensures store.budget == if added
      then BudgetUpdates.AddExpense(old(store.budget), category.id, ExpenseDraft(parsed.value, now, None), newId)
      else old(store.budget)
    ensures added && WellFormed(old(store.budget)) && !ExpenseIdInUse(old(store.budget).categories, newId)
            ==> WellFormed(store.budget)
  {
    if parsed.None? || parsed.value <= 0.0 {
      return false;
    }
    ghost var before := store.budget;
    store.AddExpense(category.id, ExpenseDraft(parsed.value, now, None), newId);
    if WellFormed(before) && !ExpenseIdInUse(before.categories, newId) {
      BudgetUpdates.AddExpenseWellFormed(before, category.id, ExpenseDraft(parsed.value, now, None), newId);
    }
    added := true;
  }

  /** handleEditAllocation: a NaN or non-positive amount returns without a call,
      so an allocation can never be set back to 0 from the card; otherwise
      editAllocation(category.id, amount). */
  method HandleEditAllocation(store: BudgetContext.Store, category: Category, parsed: Option<real>)
    returns (saved: bool)
    modifies store
    ensures saved <==> AcceptsAmount(parsed)
    ensures store.budget == if saved
      then BudgetUpdates.EditAllocation(old(store.budget), category.id, parsed.value)
      else old(store.budget)
    ensures saved ==> forall i :: 0 <= i < |store.budget.categories| && old(store.budget).categories[i].id == category.id
                        ==> store.budget.categories[i].allocation > 0.0
    ensures WellFormed(old(store.budget)) ==> WellFormed(store.budget)
  {
    if parsed.None? || parsed.value <= 0.0 {
      return false;
    }
    ghost var before := store.budget;
    store.EditAllocation(category.id, parsed.value);
    if WellFormed(before) {
      BudgetUpdates.EditAllocationWellFormed(before, category.id, parsed.value);
    }
    saved := true;
  }
}
