/** The provider of src/context/BudgetContext.tsx: one mutable `budgetData`
    cell, replaced by each operation with the value its updater computes. */
module BudgetContext {
  import opened BudgetTypes
  import BudgetUpdates

  class Store {
    var budget: BudgetData

    /** The lazy `useState` initialiser: the record read back from storage if
        there is one, else salary 0 and the default categories. */
    constructor (saved: Option<BudgetData>)
      ensures budget == (if saved.Some? then saved.value else BudgetUpdates.DefaultBudget())
      ensures saved.None? ==> WellFormed(budget)
    {
      budget := match saved
        case Some(b) => b
        case None => BudgetUpdates.DefaultBudget();
    }

    method SetSalary(amount: real)
      modifies this
      ensures budget == BudgetUpdates.SetSalary(old(budget), amount)
    {
      budget := BudgetUpdates.SetSalary(budget, amount);
    }

    method UpdateCategory(categoryId: string, updates: CategoryPatch)
      modifies this
      ensures budget == BudgetUpdates.UpdateCategory(old(budget), categoryId, updates)
    {
      budget := BudgetUpdates.UpdateCategory(budget, categoryId, updates);
    }

    /** `newId` stands for the generated `Math.random` id. */
    method AddExpense(categoryId: string, expense: ExpenseDraft, newId: string)
      modifies this
      ensures budget == BudgetUpdates.AddExpense(old(budget), categoryId, expense, newId)
    {
      budget := BudgetUpdates.AddExpense(budget, categoryId, expense, newId);
    }

    method EditAllocation(categoryId: string, amount: real)
      modifies this
      ensures budget == BudgetUpdates.EditAllocation(old(budget), categoryId, amount)
    {
      budget := BudgetUpdates.EditAllocation(budget, categoryId, amount);
    }

    /** `newId` stands for the generated `Math.random` id. */
    method AddCategory(name: string, newId: string)
      modifies this
      ensures budget == BudgetUpdates.AddCategory(old(budget), name, newId)
    {
      budget := BudgetUpdates.AddCategory(budget, name, newId);
    }

    method RemoveCategory(categoryId: string)
      modifies this
      ensures budget == BudgetUpdates.RemoveCategory(old(budget), categoryId)
    {
      budget := BudgetUpdates.RemoveCategory(budget, categoryId);
    }
  }
}
