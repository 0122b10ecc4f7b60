/** The overview of src/components/BudgetSummary.tsx: the three totals it
    shows, the salary and category handlers, and how each store operation
    moves the totals. */
module BudgetSummary {
  import opened BudgetTypes
  import opened Sums
  import opened InputGuards
  import opened ExpenseCard
  import BudgetUpdates
  import BudgetContext

  /** `cat.allocation || 0`: a real allocation is its own fallback. */
  function AllocationOf(c: Category): real
  {
    c.allocation
  }

  /** `categories.reduce((sum, cat) => sum + (cat.allocation || 0), 0)`. */
  function TotalAllocated(b: BudgetData): (r: real)
    ensures r == Sum(b.categories, AllocationOf)
  {
    ReduceIsSum(0.0, b.categories, AllocationOf);
    Reduce(0.0, b.categories, AllocationOf)
  }

  /** The inner `cat.expenses.reduce((catSum, exp) => catSum + exp.amount, 0)`
      of the summary's own nested reduce. */
  function SummaryCategorySpent(c: Category): real
  {
    Reduce(0.0, c.expenses, (e: Expense) => e.amount)
  }

  /** The summary's inner fold and the card's spent figure agree on every
      category. */
  lemma {:induction false} SummaryAgreesWithCard(c: Category)
    ensures SummaryCategorySpent(c) == CategorySpent(c)
  {
    ReduceIsSum(0.0, c.expenses, (e: Expense) => e.amount);
    SumSameValues(c.expenses, (e: Expense) => e.amount, AmountOf);
  }

  /** The nested reduce: over the categories, the sum of each category's
      expense amounts, which is the card's spent figure. */
  function TotalSpent(b: BudgetData): (r: real)
    ensures r == Sum(b.categories, CategorySpent)
  {
    ReduceIsSum(0.0, b.categories, SummaryCategorySpent);
    forall c | c in b.categories ensures SummaryCategorySpent(c) == CategorySpent(c) {
      SummaryAgreesWithCard(c);
    }
    SumSameValues(b.categories, SummaryCategorySpent, CategorySpent);
    Reduce(0.0, b.categories, SummaryCategorySpent)
  }

  /** `budgetData.salary - totalSpent`; allocations play no part. */
  function RemainingSalary(b: BudgetData): (r: real)
    ensures r + Sum(b.categories, CategorySpent) == b.salary
    ensures b.categories == [] ==> r == b.salary
  {
    b.salary - TotalSpent(b)
  }

  /** The totals of a well-formed record are non-negative, and what remains of
      the salary never exceeds it. */
  lemma WellFormedTotals(b: BudgetData)
    requires WellFormed(b)
    ensures TotalAllocated(b) >= 0.0 && TotalSpent(b) >= 0.0
    ensures RemainingSalary(b) <= b.salary
  {
    forall i | 0 <= i < |b.categories| ensures CategorySpent(b.categories[i]) >= 0.0 {
      assert CategoryWellFormed(b.categories[i]);
      CategorySpentNonNegative(b.categories[i]);
    }
    SumNonNegative(b.categories, CategorySpent);
    forall i | 0 <= i < |b.categories| ensures AllocationOf(b.categories[i]) >= 0.0 {
      assert CategoryWellFormed(b.categories[i]);
    }
    SumNonNegative(b.categories, AllocationOf);
  }

  lemma DefaultTotals()
    ensures TotalAllocated(BudgetUpdates.DefaultBudget()) == 0.0
    ensures TotalSpent(BudgetUpdates.DefaultBudget()) == 0.0
    ensures RemainingSalary(BudgetUpdates.DefaultBudget()) == 0.0
  {
    var cs := BudgetUpdates.DefaultCategories();
    SumZero(cs, AllocationOf);
    SumZero(cs, CategorySpent);
  }

  /** When `f` moves by `delta` on the categories carrying `id` and stays put on
      the others, the sum moves by `delta` once per matching category. */
  lemma {:induction false} SumShiftedWhereId(xs: seq<Category>, ys: seq<Category>, id: string,
                                             f: Category -> real, delta: real)
    requires |xs| == |ys|
    requires forall i :: 0 <= i < |xs| ==> f(ys[i]) == f(xs[i]) + (if xs[i].id == id then delta else 0.0)
    ensures Sum(ys, f) == Sum(xs, f) + delta * (CountId(xs, id) as real)
  {
    if xs != [] {
      SumShiftedWhereId(xs[1..], ys[1..], id, f, delta);
      var n := CountId(xs[1..], id) as real;
      assert delta * (n + 1.0) == delta * n + delta;
    }
  }

  // ---- how each operation moves the totals ----

  lemma SetSalaryTotals(b: BudgetData, amount: real)
    ensures TotalSpent(BudgetUpdates.SetSalary(b, amount)) == TotalSpent(b)
    ensures TotalAllocated(BudgetUpdates.SetSalary(b, amount)) == TotalAllocated(b)
    ensures RemainingSalary(BudgetUpdates.SetSalary(b, amount)) == amount - TotalSpent(b)
  {
  }

  /** addExpense adds the amount once to every category carrying the id: no
      change for an unknown id, exactly the amount for a unique one. */
  lemma AddExpenseTotals(b: BudgetData, id: string, d: ExpenseDraft, newId: string)
    ensures TotalSpent(BudgetUpdates.AddExpense(b, id, d, newId))
            == TotalSpent(b) + d.amount * (CountId(b.categories, id) as real)
    ensures TotalAllocated(BudgetUpdates.AddExpense(b, id, d, newId)) == TotalAllocated(b)
  {
    var cs, rs := b.categories, BudgetUpdates.AddExpense(b, id, d, newId).categories;
    var e := BudgetUpdates.NewExpense(d, newId);
    forall i | 0 <= i < |cs|
      ensures CategorySpent(rs[i]) == CategorySpent(cs[i]) + (if cs[i].id == id then d.amount else 0.0)
      ensures AllocationOf(rs[i]) == AllocationOf(cs[i])
    {
      if cs[i].id == id {
        AppendExpenseSpent(cs[i], e);
      }
    }
    SumShiftedWhereId(cs, rs, id, CategorySpent, d.amount);
    SumPointwise(cs, rs, AllocationOf);
  }

  /** With distinct ids, an expense added to an existing category raises the
      total spent by exactly its amount and lowers the remaining salary by it. */
  lemma AddExpenseToOneCategory(b: BudgetData, id: string, d: ExpenseDraft, newId: string)
    requires UniqueCategoryIds(b.categories)
    requires HasCategoryId(b.categories, id)
    ensures TotalSpent(BudgetUpdates.AddExpense(b, id, d, newId)) == TotalSpent(b) + d.amount
    ensures RemainingSalary(BudgetUpdates.AddExpense(b, id, d, newId)) == RemainingSalary(b) - d.amount
  {
    CountIdUnique(b.categories, id);
    AddExpenseTotals(b, id, d, newId);
  }

  /** With distinct ids, editing the allocation of the category at `k` swaps its
      old allocation for the new one in the total; spending is untouched. */
  lemma EditAllocationTotals(b: BudgetData, k: nat, amount: real)
    requires UniqueCategoryIds(b.categories)
    requires k < |b.categories|
    ensures TotalAllocated(BudgetUpdates.EditAllocation(b, b.categories[k].id, amount))
            == TotalAllocated(b) - b.categories[k].allocation + amount
    ensures TotalSpent(BudgetUpdates.EditAllocation(b, b.categories[k].id, amount)) == TotalSpent(b)
  {
    var cs := b.categories;
    var rs := BudgetUpdates.EditAllocation(b, cs[k].id, amount).categories;
    assert rs == cs[k := cs[k].(allocation := amount)] by {
      forall i | 0 <= i < |cs| ensures rs[i] == cs[k := cs[k].(allocation := amount)][i] {
        if i != k { assert cs[i].id != cs[k].id; }
      }
    }
    SumUpdateAt(cs, k, cs[k].(allocation := amount), AllocationOf);
    SumUpdateAt(cs, k, cs[k].(allocation := amount), CategorySpent);
  }

  /** An update that leaves out `expenses` leaves the total spent alone; one
      that leaves out `allocation` leaves the total allocated alone. */
  lemma UpdateCategoryTotals(b: BudgetData, id: string, p: CategoryPatch)
    ensures p.expenses.None? ==> TotalSpent(BudgetUpdates.UpdateCategory(b, id, p)) == TotalSpent(b)
    ensures p.allocation.None? ==> TotalAllocated(BudgetUpdates.UpdateCategory(b, id, p)) == TotalAllocated(b)
  {
    var cs, rs := b.categories, BudgetUpdates.UpdateCategory(b, id, p).categories;
    if p.expenses.None? {
      SumPointwise(cs, rs, CategorySpent);
    }
    if p.allocation.None? {
      SumPointwise(cs, rs, AllocationOf);
    }
  }

  /** A new category has nothing allocated and nothing spent. */
  lemma AddCategoryTotals(b: BudgetData, name: string, newId: string)
    ensures TotalSpent(BudgetUpdates.AddCategory(b, name, newId)) == TotalSpent(b)
    ensures TotalAllocated(BudgetUpdates.AddCategory(b, name, newId)) == TotalAllocated(b)
  {
    var c := BudgetUpdates.NewCategory(name, newId);
    SumAppend(b.categories, [c], CategorySpent);
    SumAppend(b.categories, [c], AllocationOf);
  }

  /** With distinct ids, removing the category at `k` takes exactly its spent
      and its allocation off the totals. */
  lemma RemoveCategoryTotals(b: BudgetData, k: nat)
    requires UniqueCategoryIds(b.categories)
    requires k < |b.categories|
    ensures TotalSpent(BudgetUpdates.RemoveCategory(b, b.categories[k].id))
            == TotalSpent(b) - CategorySpent(b.categories[k])
    ensures TotalAllocated(BudgetUpdates.RemoveCategory(b, b.categories[k].id))
            == TotalAllocated(b) - b.categories[k].allocation
  {
    var cs := b.categories;
    BudgetUpdates.RemoveCategoryAt(b, k);
    assert cs == cs[..k] + [cs[k]] + cs[k + 1..];
    SumAppend(cs[..k] + [cs[k]], cs[k + 1..], CategorySpent);
    SumAppend(cs[..k], [cs[k]], CategorySpent);
    SumAppend(cs[..k], cs[k + 1..], CategorySpent);
    SumAppend(cs[..k] + [cs[k]], cs[k + 1..], AllocationOf);
    SumAppend(cs[..k], [cs[k]], AllocationOf);
    SumAppend(cs[..k], cs[k + 1..], AllocationOf);
  }

  /** A walk-through on any record shaped like the seed: salary 50000, then
      15000 allocated to and spent on the category with id '1'. */
  lemma {:induction false} ScenarioFrom(b0: BudgetData, now: string, newId: string)
    requires UniqueCategoryIds(b0.categories) && |b0.categories| > 0
    requires b0.categories[0].id == "1" && b0.categories[0].allocation == 0.0 && b0.categories[0].expenses == []
    requires TotalAllocated(b0) == 0.0 && TotalSpent(b0) == 0.0
    ensures var b1 := BudgetUpdates.SetSalary(b0, 50000.0);
            var b2 := BudgetUpdates.EditAllocation(b1, "1", 15000.0);
            var b3 := BudgetUpdates.AddExpense(b2, "1", ExpenseDraft(15000.0, now, None), newId);
            && b1.salary == 50000.0
            && TotalAllocated(b2) == 15000.0
            && TotalSpent(b3) == 15000.0
            && CategoryRemaining(b3.categories[0]) == 0.0
            && RemainingSalary(b3) == 35000.0
  {
    var b1 := BudgetUpdates.SetSalary(b0, 50000.0);
    var b2 := BudgetUpdates.EditAllocation(b1, "1", 15000.0);
    var d := ExpenseDraft(15000.0, now, None);
    var e := BudgetUpdates.NewExpense(d, newId);
    var b3 := BudgetUpdates.AddExpense(b2, "1", d, newId);
    SetSalaryTotals(b0, 50000.0);
    EditAllocationTotals(b1, 0, 15000.0);
    assert b2.categories[0] == b0.categories[0].(allocation := 15000.0);
    assert UniqueCategoryIds(b2.categories) by {
      forall i | 0 <= i < |b2.categories| ensures b2.categories[i].id == b0.categories[i].id {
      }
    }
    assert HasCategoryId(b2.categories, "1");
    AddExpenseToOneCategory(b2, "1", d, newId);
    AppendExpenseSpent(b2.categories[0], e);
    assert b3.categories[0] == b2.categories[0].(expenses := [] + [e]);
    assert CategoryRemaining(b2.categories[0]) == 15000.0;
  }

  /** The same walk-through from the default seed itself. */
  lemma DefaultScenario(now: string, newId: string)
    ensures var b1 := BudgetUpdates.SetSalary(BudgetUpdates.DefaultBudget(), 50000.0);
            var b2 := BudgetUpdates.EditAllocation(b1, "1", 15000.0);
            var b3 := BudgetUpdates.AddExpense(b2, "1", ExpenseDraft(15000.0, now, None), newId);
            && TotalAllocated(b2) == 15000.0
            && TotalSpent(b3) == 15000.0
            && CategoryRemaining(b3.categories[0]) == 0.0
            && RemainingSalary(b3) == 35000.0
  {
    DefaultTotals();
    ScenarioFrom(BudgetUpdates.DefaultBudget(), now, newId);
  }

  /** handleSalaryUpdate: a NaN or non-positive amount returns without calling
      setSalary; otherwise the salary becomes exactly the parsed amount. */
  method HandleSalaryUpdate(store: BudgetContext.Store, parsed: Option<real>)
    returns (updated: bool)
    modifies store
    ensures updated <==> AcceptsAmount(parsed)
    ensures store.budget == if updated then BudgetUpdates.SetSalary(old(store.budget), parsed.value)
                            else old(store.budget)
    ensures WellFormed(old(store.budget)) ==> WellFormed(store.budget)
  {
    if parsed.None? || parsed.value <= 0.0 {
      return false;
    }
    store.SetSalary(parsed.value);
    updated := true;
  }

  /** handleAddCategory: a name that trims to nothing is refused; any other name
      is stored as typed, untrimmed. `newId` stands for the generated id. */
  method HandleAddCategory(store: BudgetContext.Store, name: string, newId: string)
    returns (added: bool)
    modifies store
    ensures added <==> !IsBlankName(name)
    ensures store.budget == if added then BudgetUpdates.AddCategory(old(store.budget), name, newId)
                            else old(store.budget)
    ensures added && WellFormed(old(store.budget)) && !HasCategoryId(old(store.budget).categories, newId)
            ==> WellFormed(store.budget)
  {
    if Trim(name) == [] {
      return false;
    }
    ghost var before := store.budget;
    store.AddCategory(name, newId);
    if WellFormed(before) && !HasCategoryId(before.categories, newId) {
      BudgetUpdates.AddCategoryWellFormed(before, name, newId);
    }
    added := true;
  }

  /** handleRemoveCategory: no guard; it always calls removeCategory. The
      category's name only feeds the toast. */
  method HandleRemoveCategory(store: BudgetContext.Store, categoryId: string)
    modifies store
    ensures store.budget == BudgetUpdates.RemoveCategory(old(store.budget), categoryId)
    ensures WellFormed(old(store.budget)) ==> WellFormed(store.budget)
  {
    ghost var before := store.budget;
    store.RemoveCategory(categoryId);
    if WellFormed(before) {
      BudgetUpdates.RemoveCategoryWellFormed(before, categoryId);
    }
  }
}
