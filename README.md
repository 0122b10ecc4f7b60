# Budgease budget store, modelled in Dafny

Budgease is a personal budget tracker. Its state is one record: a monthly
salary plus an ordered list of spending categories. Each category has an id,
a name, an allocation and an ordered list of expenses. A React context
provider holds this record in one state cell and exposes six operations:
`setSalary`, `updateCategory`, `addExpense`, `editAllocation`, `addCategory`
and `removeCategory`. Two components read the record. The summary shows the
total allocated, the total spent and the salary left over. Each expense card
shows one category's spent and remaining amounts. The components also guard
user input before calling the store.

The model has one Dafny module per concern:

- `BudgetTypes` (`budget_types.dfy`): the record's datatypes, following
  `src/types/budget.ts`. It also holds the well-formedness conditions the
  type does not enforce: distinct category ids, distinct expense ids, and no
  negative salary, allocation or amount.
- `Sums` (`sums.dfy`): JavaScript's `reduce` as a left fold, and a structural
  sum used as its reference definition.
- `BudgetUpdates` (`budget_updates.dfy`): the default seed and each
  operation's `prev => ({ ...prev, ... })` updater as a pure function, with
  the laws they obey.
- `BudgetContext` (`budget_context.dfy`): the provider's mutable cell, as a
  `Store` class with one `budget` field and one method per operation.
- `InputGuards` (`input_guards.dfy`): the positive-number test and
  JavaScript's `trim`.
- `ExpenseCard` (`expense_card.dfy`) and `BudgetSummary`
  (`budget_summary.dfy`): the derived views, the guarded handlers, and how
  each operation moves the totals.

Every operation returns a `BudgetData`, so every result is a salary and an
ordered category sequence by typing alone.

The model follows the code in four places where one might expect otherwise:

- The store operations validate nothing. Only the UI handlers reject NaN,
  non-positive amounts and blank names. A direct store call can set a
  negative salary, so the raw operations keep well-formedness only under
  explicit preconditions.
- An unknown category id is not an error. `map` and `filter` leave the record
  unchanged, and `addExpense` on an unknown id does nothing.
- The default names are Rent, Home, Suits, Food Order, Grocery, Shop and Misc.
- The allocation guard rejects 0, so an allocation cannot be reset to 0 from
  the card, although the seed starts every category at 0.

## Model

| member | source | states |
|---|---|---|
| BudgetTypes.NoteIsOptional | src/types/budget.ts:1-6 | the optional note plays no part in well-formedness: an expense list is well-formed with a given note exactly when it is without it |
| BudgetTypes.DuplicateIdsAreRepresentable | src/types/budget.ts:8-18 | the record type admits two categories with the same id, so distinct ids are a separate predicate that such a record fails |
| BudgetTypes.CountIdUnique | src/types/budget.ts:9 | with distinct category ids, an id that occurs occurs exactly once |
| Sums.ReduceIsSum | src/components/BudgetSummary.tsx:22-26 | the left fold `Sums.Reduce`, which models `reduce((sum, x) => sum + f(x), init)` here and at src/components/ExpenseCard.tsx:19, equals `init` plus the structural sum of `f` |
| BudgetUpdates.DefaultCategories | src/context/BudgetContext.tsx:17-25 | seven categories, ids '1'..'7' in order and pairwise distinct, every allocation 0 and every expense list empty |
| BudgetUpdates.DefaultBudget | src/context/BudgetContext.tsx:31-34 | the fallback record has salary 0, the default categories, and is well-formed |
| BudgetUpdates.MapMatching | src/context/BudgetContext.tsx:48-50 | `map` keeps length and order, applies the edit exactly to the categories whose id matches, and keeps every other category as it was |
| BudgetUpdates.FilterOutId | src/context/BudgetContext.tsx:96 | the result holds exactly those categories of the input whose id differs, and is shorter by the number of matches |
| BudgetUpdates.ApplyEmptyPatch | src/context/BudgetContext.tsx:49 | `{ ...cat, ...updates }` (modelled by `BudgetUpdates.ApplyPatch`) with no field present gives back the category unchanged |
| BudgetUpdates.ApplyPatchTwice | src/context/BudgetContext.tsx:49 | spreading the same update object onto a category a second time changes nothing more, even when it renames the id |
| BudgetUpdates.ApplyPatchCompose | src/context/BudgetContext.tsx:49 | spreading `p` and then `q` equals spreading the merged object `{ ...p, ...q }`: field by field, the later update wins |
| BudgetUpdates.SetSalary | src/context/BudgetContext.tsx:41-43 | the salary becomes the amount and the category sequence is identical |
| BudgetUpdates.UpdateCategory | src/context/BudgetContext.tsx:45-52 | salary, category count and order kept; matching categories get the patch applied and all others are unchanged |
| BudgetUpdates.AddExpense | src/context/BudgetContext.tsx:54-68 | salary, count and order kept; each matching category's expense sequence gains exactly the new expense (`BudgetUpdates.NewExpense`: the draft's amount, date and note with the supplied id, src/context/BudgetContext.tsx:55-58) at its end; all others unchanged |
| BudgetUpdates.EditAllocation | src/context/BudgetContext.tsx:70-77 | salary, count and order kept; matching categories get the new allocation and nothing else changes |
| BudgetUpdates.AddCategory | src/context/BudgetContext.tsx:79-91 | the old sequence is a prefix of the new one, the length grows by one, and the last element is the new category (`BudgetUpdates.NewCategory`: the supplied id, the untrimmed name, allocation 0 and no expenses, src/context/BudgetContext.tsx:80-85) |
| BudgetUpdates.RemoveCategory | src/context/BudgetContext.tsx:93-98 | the salary is kept, no category with the id is left, and the survivors are exactly the old categories with another id |
| BudgetUpdates.UpdateCategoryUnknownId | src/context/BudgetContext.tsx:45-52 | an id no category carries leaves the record unchanged |
| BudgetUpdates.UpdateCategoryIdempotent | src/context/BudgetContext.tsx:45-52 | applying the same update twice gives the same record as applying it once |
| BudgetUpdates.EditAllocationIsUpdate | src/context/BudgetContext.tsx:45-77 | `editAllocation(id, a)` equals `updateCategory(id, { allocation: a })` |
| BudgetUpdates.AddExpenseUnknownId | src/context/BudgetContext.tsx:54-68 | an expense for an id no category carries leaves the record unchanged |
| BudgetUpdates.RemoveCategoryUnknownId | src/context/BudgetContext.tsx:93-98 | removing an id no category carries leaves the record unchanged |
| BudgetUpdates.RemoveCategoryIdempotent | src/context/BudgetContext.tsx:93-98 | removing twice gives the same record as removing once |
| BudgetUpdates.FilterOutAppend | src/context/BudgetContext.tsx:96 | the filter distributes over concatenation, so the survivors keep their relative order |
| BudgetUpdates.RemoveCategoryAt | src/context/BudgetContext.tsx:93-98 | with distinct ids, removing the id of the category at position k leaves exactly the categories before k followed by those after k |
| BudgetUpdates.SetSalaryWellFormed | src/context/BudgetContext.tsx:41-43 | a non-negative salary keeps a well-formed record well-formed |
| BudgetUpdates.UpdateCategoryWellFormed | src/context/BudgetContext.tsx:45-52 | an update with well-formed fields whose new id, if any, is the matched id or unused keeps the record well-formed |
| BudgetUpdates.AddExpenseWellFormed | src/context/BudgetContext.tsx:54-68 | a non-negative expense whose id no category uses keeps the record well-formed |
| BudgetUpdates.EditAllocationWellFormed | src/context/BudgetContext.tsx:70-77 | a non-negative allocation keeps the record well-formed |
| BudgetUpdates.AddCategoryWellFormed | src/context/BudgetContext.tsx:79-91 | a category id not yet in use keeps category ids distinct and the record well-formed |
| BudgetUpdates.AddCategoryTwice | src/context/BudgetContext.tsx:79-91 | two additions under one name with two different fresh ids give two distinct categories of that name at the end of a well-formed record |
| BudgetUpdates.RemoveCategoryWellFormed | src/context/BudgetContext.tsx:93-98 | removal always keeps a well-formed record well-formed |
| BudgetContext.Store.constructor | src/context/BudgetContext.tsx:29-35 | the cell starts as the saved record if there is one, else as the default record, which is well-formed |
| BudgetContext.Store.SetSalary | src/context/BudgetContext.tsx:41-43 | the cell is replaced by the setSalary updater applied to its old value |
| BudgetContext.Store.UpdateCategory | src/context/BudgetContext.tsx:45-52 | the cell is replaced by the updateCategory updater applied to its old value |
| BudgetContext.Store.AddExpense | src/context/BudgetContext.tsx:54-68 | the cell is replaced by the addExpense updater applied to its old value, the generated id given as a parameter |
| BudgetContext.Store.EditAllocation | src/context/BudgetContext.tsx:70-77 | the cell is replaced by the editAllocation updater applied to its old value |
| BudgetContext.Store.AddCategory | src/context/BudgetContext.tsx:79-91 | the cell is replaced by the addCategory updater applied to its old value, the generated id given as a parameter |
| BudgetContext.Store.RemoveCategory | src/context/BudgetContext.tsx:93-98 | the cell is replaced by the removeCategory updater applied to its old value |
| InputGuards.TrimStart | src/components/BudgetSummary.tsx:41 | the result is a suffix of the input; everything dropped is white space or a line terminator, and the result does not start with one |
| InputGuards.TrimEnd | src/components/BudgetSummary.tsx:41 | the result is a prefix of the input; everything dropped is white space or a line terminator, and the result does not end with one |
| InputGuards.Trim | src/components/BudgetSummary.tsx:41 | the trimmed name is the slice of the input that keeps every character outside `InputGuards.IsTrimmable` (the ECMAScript white-space and line-terminator set); it is empty exactly when every character is trimmable, and a non-empty result starts and ends with a non-trimmable character |
| ExpenseCard.CategorySpent | src/components/ExpenseCard.tsx:19 | the left-fold reduce equals the sum of the amounts of exactly this category's expenses |
| ExpenseCard.CategoryRemaining | src/components/ExpenseCard.tsx:20 | remaining plus the sum of the expense amounts is the allocation |
| ExpenseCard.CategorySpentNonNegative | src/components/ExpenseCard.tsx:19 | a category with well-formed expenses has a non-negative spent total |
| ExpenseCard.AppendExpenseSpent | src/components/ExpenseCard.tsx:19-20 | appending an expense raises spent by exactly its amount and lowers remaining by it |
| ExpenseCard.OverspendingIsShown | src/components/ExpenseCard.tsx:80 | from the seed, one accepted expense leaves a well-formed record whose category has a negative remaining amount, for which the colour switch `ExpenseCard.ShowsRemainingAsPositive` (`remaining >= 0`) picks the negative style |
| ExpenseCard.HandleAddExpense | src/components/ExpenseCard.tsx:22-31 | the store is called exactly when the parsed amount passes `InputGuards.AcceptsAmount`, the `isNaN(amount) \|\| amount <= 0` guard of src/components/ExpenseCard.tsx:24 negated, that is when it is a positive number, with that amount, the given date, no note and this card's category id; otherwise the record is unchanged |
| ExpenseCard.HandleEditAllocation | src/components/ExpenseCard.tsx:33-39 | the store is called exactly when the parsed amount passes `InputGuards.AcceptsAmount` (the guard of src/components/ExpenseCard.tsx:35), that is when it is a positive number, as editAllocation(category.id, amount); an accepted edit leaves every matching allocation strictly positive, and well-formedness is kept |
| BudgetSummary.TotalAllocated | src/components/BudgetSummary.tsx:22 | the reduce of `BudgetSummary.AllocationOf`, which models `cat.allocation \|\| 0`, equals the sum of the allocations over the categories |
| BudgetSummary.SummaryAgreesWithCard | src/components/BudgetSummary.tsx:24 | the summary's own inner reduce over a category's expenses (`BudgetSummary.SummaryCategorySpent`) equals the card's spent figure for that category |
| BudgetSummary.TotalSpent | src/components/BudgetSummary.tsx:23-26 | the nested reduce equals the sum over the categories of each card's spent figure |
| BudgetSummary.RemainingSalary | src/components/BudgetSummary.tsx:27 | remaining plus the total spent is the salary; with no categories it equals the salary |
| BudgetSummary.WellFormedTotals | src/components/BudgetSummary.tsx:22-27 | for a well-formed record both totals are non-negative and the remaining salary never exceeds the salary |
| BudgetSummary.DefaultTotals | src/context/BudgetContext.tsx:17-34 | the default record has nothing allocated, nothing spent and nothing remaining |
| BudgetSummary.SetSalaryTotals | src/context/BudgetContext.tsx:41-43 | setSalary leaves both totals alone and makes the remaining salary the amount minus the total spent |
| BudgetSummary.AddExpenseTotals | src/context/BudgetContext.tsx:54-68 | addExpense raises the total spent by the amount times the number of categories with the id, and leaves the total allocated alone |
| BudgetSummary.AddExpenseToOneCategory | src/context/BudgetContext.tsx:60-67 | with distinct ids and an existing id, the total spent rises by exactly the amount and the remaining salary falls by it |
| BudgetSummary.EditAllocationTotals | src/context/BudgetContext.tsx:70-77 | with distinct ids, the total allocated swaps the category's old allocation for the new one, and the total spent is unchanged |
| BudgetSummary.UpdateCategoryTotals | src/context/BudgetContext.tsx:45-52 | an update without expenses keeps the total spent; one without an allocation keeps the total allocated |
| BudgetSummary.AddCategoryTotals | src/context/BudgetContext.tsx:79-91 | adding a category changes neither total |
| BudgetSummary.RemoveCategoryTotals | src/context/BudgetContext.tsx:93-98 | with distinct ids, removal lowers the total spent by that category's spent and the total allocated by its allocation |
| BudgetSummary.ScenarioFrom | src/components/BudgetSummary.tsx:22-27 | from a seed-shaped record: salary 50000, allocation and expense of 15000 on category '1' give 15000 allocated, 15000 spent, 0 left on the card and 35000 of salary remaining |
| BudgetSummary.DefaultScenario | src/context/BudgetContext.tsx:31-34 | the same walk-through holds starting from the default record |
| BudgetSummary.HandleSalaryUpdate | src/components/BudgetSummary.tsx:29-38 | setSalary is called exactly when the parsed amount passes `InputGuards.AcceptsAmount` (the guard of src/components/BudgetSummary.tsx:31), that is when it is a positive number, and the salary becomes that amount; otherwise the record is unchanged; well-formedness is kept |
| BudgetSummary.HandleAddCategory | src/components/BudgetSummary.tsx:40-55 | addCategory is called exactly when the name is not `InputGuards.IsBlankName`, the `!newCategoryName.trim()` test of src/components/BudgetSummary.tsx:41, that is when it is not blank after trimming, with the untrimmed name; a fresh id keeps the record well-formed |
| BudgetSummary.HandleRemoveCategory | src/components/BudgetSummary.tsx:57-63 | removal is unconditional and always delegates to removeCategory; well-formedness is kept |

## Left out

- Reading, parsing and writing `localStorage` (`src/context/BudgetContext.tsx:30-39`) is browser I/O. The constructor takes the already decoded saved record, if any. `JSON.parse` does no schema check, so a saved record need not be well-formed, and the constructor promises nothing about one. The `JSON.stringify` effect is not modelled.
- Id generation with `Math.random` (`src/context/BudgetContext.tsx:57, 81`) is randomness. The id is a parameter. Lemmas that need it fresh say so in a precondition; the code itself can produce colliding ids.
- `parseFloat`, `toLocaleString` and floating-point arithmetic are not modelled. Amounts are exact reals. A parse result is `Option<real>` with `None` for NaN. `Infinity` passes the source's guard but is not representable here.
- BudgetSummary.TotalAllocated: drops the `|| 0` fallback of `src/components/BudgetSummary.tsx:22`. With real-valued allocations the fallback is the identity. It only matters for a NaN or missing allocation in a record loaded unchecked from storage.
- Dafny's `string` is a sequence of Unicode scalar values, while a JavaScript string is a sequence of UTF-16 code units, so a name holding a lone surrogate cannot be represented. `trim` is unaffected: every character it strips lies in the Basic Multilingual Plane.
- `Partial<Category>` is modelled with absent fields only. An update object that sets a field explicitly to `undefined` is not modelled.
- The expense date comes from `new Date().toISOString()` (`src/components/ExpenseCard.tsx:28`), a clock read. It is the `now` parameter.
- Toasts, dialogs and the editing flags (`isEditingSalary`, `newSalary`, `newCategoryName`, `isEditing`, `newExpense`, `newAllocation`) are UI state. They are not modelled, so neither is the handlers' resetting of those inputs after a call.
- The `useBudget` error when no provider is present (`src/context/BudgetContext.tsx:115-121`) is React plumbing.
- `src/firebase/firebase.ts` (authentication and document-store calls), the pages, the navigation bar, the login form, the route guard and `src/App.tsx` hold no budget logic and are not part of this model. The budget store in `src/context/BudgetContext.tsx` has no remote sync, subscription, loading state or reconciliation, so none is modelled; `src/firebase/firebase.ts` only reads the user's document at sign-in and creates it when it is missing.
- React's batching of functional state updates is not modelled. Each store method replaces the cell at once, which matches the updater form the source uses.
