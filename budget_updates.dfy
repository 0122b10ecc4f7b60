/** The pure updaters of src/context/BudgetContext.tsx: each operation's
    `prev => ({ ...prev, ... })` callback, and the default seed. None of them
    validates its arguments; an unknown category id just matches nothing. */
module BudgetUpdates {
  import opened BudgetTypes

  /** Seven categories with ids '1'..'7', zero allocation and no expenses. */
  function DefaultCategories(): (cs: seq<Category>)
    ensures |cs| == 7 && UniqueCategoryIds(cs)
    ensures forall i :: 0 <= i < |cs| ==> cs[i].allocation == 0.0 && cs[i].expenses == []
    ensures forall i :: 0 <= i < |cs| ==> cs[i].id == [(('1' as int) + i) as char]
  {
    [ Category("1", "Rent", 0.0, []),
      Category("2", "Home", 0.0, []),
      Category("3", "Suits", 0.0, []),
      Category("4", "Food Order", 0.0, []),
      Category("5", "Grocery", 0.0, []),
      Category("6", "Shop", 0.0, []),
      Category("7", "Misc", 0.0, []) ]
  }

  /** The record used when nothing was saved: salary 0 and the default categories. */
  function DefaultBudget(): (b: BudgetData)
    ensures b.salary == 0.0 && b.categories == DefaultCategories()
    ensures WellFormed(b)
  {
    BudgetData(0.0, DefaultCategories())
  }

  /** `cats.map(cat => cat.id === id ? edit(cat) : cat)`. */
  function MapMatching(cs: seq<Category>, id: string, edit: Category -> Category): (r: seq<Category>)
    ensures |r| == |cs|
    ensures forall i :: 0 <= i < |cs| ==> r[i] == if cs[i].id == id then edit(cs[i]) else cs[i]
  {
    if cs == [] then []
    else [if cs[0].id == id then edit(cs[0]) else cs[0]] + MapMatching(cs[1..], id, edit)
  }

  /** `cats.filter(cat => cat.id !== id)`. */
  function FilterOutId(cs: seq<Category>, id: string): (r: seq<Category>)
    ensures forall c :: c in r <==> c in cs && c.id != id
    ensures |r| == |cs| - CountId(cs, id)
  {
    if cs == [] then []
    else if cs[0].id == id then FilterOutId(cs[1..], id)
    else [cs[0]] + FilterOutId(cs[1..], id)
  }

  /** `{ ...cat, ...updates }`: every field present in the patch wins. */
  function ApplyPatch(c: Category, p: CategoryPatch): Category
  {
    Category(
      match p.id case Some(v) => v case None => c.id,
      match p.name case Some(v) => v case None => c.name,
      match p.allocation case Some(v) => v case None => c.allocation,
      match p.expenses case Some(v) => v case None => c.expenses)
  }

  /** The update with no field present, `{}`, changes nothing. */
  lemma ApplyEmptyPatch(c: Category)
    ensures ApplyPatch(c, CategoryPatch(None, None, None, None)) == c
  {
  }

  /** Spreading the same update a second time changes nothing more, even when
      the update renames the category. */
  lemma ApplyPatchTwice(c: Category, p: CategoryPatch)
    ensures ApplyPatch(ApplyPatch(c, p), p) == ApplyPatch(c, p)
  {
  }

  /** A later spread wins field by field: `{ ...{ ...cat, ...p }, ...q }` is
      `{ ...cat, ...{ ...p, ...q } }`. */
  lemma ApplyPatchCompose(c: Category, p: CategoryPatch, q: CategoryPatch)
    ensures ApplyPatch(ApplyPatch(c, p), q) == ApplyPatch(c, MergePatches(p, q))
  {
  }

  /** `{ ...p, ...q }` on two update objects. */
  function MergePatches(p: CategoryPatch, q: CategoryPatch): CategoryPatch
  {
    CategoryPatch(
      if q.id.Some? then q.id else p.id,
      if q.name.Some? then q.name else p.name,
      if q.allocation.Some? then q.allocation else p.allocation,
      if q.expenses.Some? then q.expenses else p.expenses)
  }

  /** The update object `{ allocation: amount }`. */
  function AllocationPatch(amount: real): CategoryPatch
  {
    CategoryPatch(None, None, Some(amount), None)
  }

  /** The expense addExpense builds: the draft's fields plus the generated id. */
  function NewExpense(d: ExpenseDraft, newId: string): Expense
  {
    Expense(newId, d.amount, d.date, d.note)
  }

  /** The category addCategory builds. */
  function NewCategory(name: string, newId: string): Category
  {
    Category(newId, name, 0.0, [])
  }

  function SetSalary(prev: BudgetData, amount: real): (next: BudgetData)
    ensures next.salary == amount
    ensures next.categories == prev.categories
  {
    prev.(salary := amount)
  }

  function UpdateCategory(prev: BudgetData, id: string, p: CategoryPatch): (next: BudgetData)
    ensures next.salary == prev.salary
    ensures |next.categories| == |prev.categories|
    ensures forall i :: 0 <= i < |prev.categories| ==>
      next.categories[i] == if prev.categories[i].id == id then ApplyPatch(prev.categories[i], p)
                            else prev.categories[i]
  {
    prev.(categories := MapMatching(prev.categories, id, c => ApplyPatch(c, p)))
  }

  function AddExpense(prev: BudgetData, id: string, d: ExpenseDraft, newId: string): (next: BudgetData)
    ensures next.salary == prev.salary
    ensures |next.categories| == |prev.categories|
    ensures forall i :: 0 <= i < |prev.categories| ==>
      next.categories[i] == if prev.categories[i].id == id
                            then prev.categories[i].(expenses := prev.categories[i].expenses + [NewExpense(d, newId)])
                            else prev.categories[i]
  {
    var e := NewExpense(d, newId);
    prev.(categories := MapMatching(prev.categories, id, (c: Category) => c.(expenses := c.expenses + [e])))
  }

  function EditAllocation(prev: BudgetData, id: string, amount: real): (next: BudgetData)
    ensures next.salary == prev.salary
    ensures |next.categories| == |prev.categories|
    ensures forall i :: 0 <= i < |prev.categories| ==>
      next.categories[i] == if prev.categories[i].id == id then prev.categories[i].(allocation := amount)
                            else prev.categories[i]
  {
    prev.(categories := MapMatching(prev.categories, id, (c: Category) => c.(allocation := amount)))
  }

  function AddCategory(prev: BudgetData, name: string, newId: string): (next: BudgetData)
    ensures next.salary == prev.salary
    ensures |next.categories| == |prev.categories| + 1
    ensures prev.categories <= next.categories
    ensures next.categories[|prev.categories|] == NewCategory(name, newId)
  {
    prev.(categories := prev.categories + [NewCategory(name, newId)])
  }

  function RemoveCategory(prev: BudgetData, id: string): (next: BudgetData)
    ensures next.salary == prev.salary
    ensures !HasCategoryId(next.categories, id)
    ensures forall c :: c in next.categories <==> c in prev.categories && c.id != id
  {
    prev.(categories := FilterOutId(prev.categories, id))
  }

  // ---- updateCategory ----

  /** An id that no category carries leaves the record as it was. */
  lemma UpdateCategoryUnknownId(b: BudgetData, id: string, p: CategoryPatch)
    requires !HasCategoryId(b.categories, id)
    ensures UpdateCategory(b, id, p) == b
  {
    var r := UpdateCategory(b, id, p);
    assert r.categories == b.categories;
  }

  /** Applying the same update twice is the same as applying it once. */
  lemma UpdateCategoryIdempotent(b: BudgetData, id: string, p: CategoryPatch)
    ensures UpdateCategory(UpdateCategory(b, id, p), id, p) == UpdateCategory(b, id, p)
  {
    var once := UpdateCategory(b, id, p);
    var twice := UpdateCategory(once, id, p);
    forall i | 0 <= i < |b.categories| ensures twice.categories[i] == once.categories[i] {
      if b.categories[i].id == id && once.categories[i].id == id {
        ApplyPatchTwice(b.categories[i], p);
      }
    }
    assert twice.categories == once.categories;
  }

  /** editAllocation(id, a) is updateCategory(id, { allocation: a }). */
  lemma EditAllocationIsUpdate(b: BudgetData, id: string, amount: real)
    ensures EditAllocation(b, id, amount) == UpdateCategory(b, id, AllocationPatch(amount))
  {
    var e := EditAllocation(b, id, amount);
    var u := UpdateCategory(b, id, AllocationPatch(amount));
    assert e.categories == u.categories;
  }

  // ---- addExpense ----

  lemma AddExpenseUnknownId(b: BudgetData, id: string, d: ExpenseDraft, newId: string)
    requires !HasCategoryId(b.categories, id)
    ensures AddExpense(b, id, d, newId) == b
  {
    var r := AddExpense(b, id, d, newId);
    assert r.categories == b.categories;
  }

  // ---- removeCategory ----

  /** An id that no category carries leaves the record as it was. */
  lemma {:induction false} FilterOutUnknownId(cs: seq<Category>, id: string)
    requires !HasCategoryId(cs, id)
    ensures FilterOutId(cs, id) == cs
  {
    if cs != [] {
      assert cs[0].id != id;
      assert !HasCategoryId(cs[1..], id) by {
        forall i | 0 <= i < |cs[1..]| ensures cs[1..][i].id != id {
          assert cs[1..][i] == cs[i + 1];
        }
      }
      FilterOutUnknownId(cs[1..], id);
      assert cs == [cs[0]] + cs[1..];
    }
  }

  lemma RemoveCategoryUnknownId(b: BudgetData, id: string)
    requires !HasCategoryId(b.categories, id)
    ensures RemoveCategory(b, id) == b
  {
    FilterOutUnknownId(b.categories, id);
  }

  /** Removing twice is removing once. */
  lemma RemoveCategoryIdempotent(b: BudgetData, id: string)
    ensures RemoveCategory(RemoveCategory(b, id), id) == RemoveCategory(b, id)
  {
    FilterOutUnknownId(RemoveCategory(b, id).categories, id);
  }

  /** The filter distributes over concatenation, so the survivors keep their order. */
  lemma {:induction false} FilterOutAppend(a: seq<Category>, b: seq<Category>, id: string)
    ensures FilterOutId(a + b, id) == FilterOutId(a, id) + FilterOutId(b, id)
  {
    if a == [] {
      assert a + b == b;
    } else {
      var ab := a + b;
      assert ab != [] && ab[0] == a[0] && ab[1..] == a[1..] + b;
      FilterOutAppend(a[1..], b, id);
      if a[0].id != id {
        assert FilterOutId(ab, id) == [a[0]] + FilterOutId(a[1..] + b, id);
        assert FilterOutId(a, id) == [a[0]] + FilterOutId(a[1..], id);
      }
    }
  }

  /** With distinct ids, the id at position k occurs neither before nor after k. */
  lemma IdOnlyAt(cs: seq<Category>, k: nat)
    requires UniqueCategoryIds(cs)
    requires k < |cs|
    ensures !HasCategoryId(cs[..k], cs[k].id)
    ensures !HasCategoryId(cs[k + 1..], cs[k].id)
  {
    var pre, post := cs[..k], cs[k + 1..];
    forall i | 0 <= i < |pre| ensures pre[i].id != cs[k].id {
      assert pre[i] == cs[i];
    }
    forall i | 0 <= i < |post| ensures post[i].id != cs[k].id {
      assert post[i] == cs[k + 1 + i];
    }
  }

  /** With distinct ids, removing the category at position k leaves the others
      in their original order. */
  lemma RemoveCategoryAt(b: BudgetData, k: nat)
    requires UniqueCategoryIds(b.categories)
    requires k < |b.categories|
    ensures RemoveCategory(b, b.categories[k].id).categories == b.categories[..k] + b.categories[k + 1..]
  {
    var cs, id := b.categories, b.categories[k].id;
    var pre, post := cs[..k], cs[k + 1..];
    IdOnlyAt(cs, k);
    assert FilterOutId([cs[k]], id) == [] by {
      assert [cs[k]][1..] == [];
    }
    calc {
      FilterOutId(cs, id);
      { assert cs == pre + [cs[k]] + post; }
      FilterOutId(pre + [cs[k]] + post, id);
      { FilterOutAppend(pre + [cs[k]], post, id); }
      FilterOutId(pre + [cs[k]], id) + FilterOutId(post, id);
      { FilterOutAppend(pre, [cs[k]], id); }
      FilterOutId(pre, id) + [] + FilterOutId(post, id);
      { FilterOutUnknownId(pre, id); FilterOutUnknownId(post, id); }
      pre + [] + post;
      pre + post;
    }
  }

  // ---- well-formedness ----

  lemma SetSalaryWellFormed(b: BudgetData, amount: real)
    requires WellFormed(b) && amount >= 0.0
    ensures WellFormed(SetSalary(b, amount))
  {
  }

  /** An update keeps the record well-formed when its fields are well-formed and
      any new id it sets is the matched id or not yet in use. */
  lemma UpdateCategoryWellFormed(b: BudgetData, id: string, p: CategoryPatch)
    requires WellFormed(b)
    requires p.allocation.Some? ==> p.allocation.value >= 0.0
    requires p.expenses.Some? ==> ExpensesWellFormed(p.expenses.value)
    requires p.id.Some? ==> p.id.value == id || !HasCategoryId(b.categories, p.id.value)
    ensures WellFormed(UpdateCategory(b, id, p))
  {
    var cs, r := b.categories, UpdateCategory(b, id, p).categories;
    forall i, j | 0 <= i < j < |r| ensures r[i].id != r[j].id {
      assert cs[i].id != cs[j].id;
      if p.id.Some? && p.id.value != id {
        assert cs[i].id != p.id.value && cs[j].id != p.id.value;
      }
    }
    forall i | 0 <= i < |r| ensures CategoryWellFormed(r[i]) {
      assert CategoryWellFormed(cs[i]);
    }
  }

  /** An expense id no category uses keeps every expense sequence free of duplicates. */
  lemma AddExpenseWellFormed(b: BudgetData, id: string, d: ExpenseDraft, newId: string)
    requires WellFormed(b)
    requires d.amount >= 0.0
    requires !ExpenseIdInUse(b.categories, newId)
    ensures WellFormed(AddExpense(b, id, d, newId))
  {
    var cs, r := b.categories, AddExpense(b, id, d, newId).categories;
    forall i | 0 <= i < |r| ensures CategoryWellFormed(r[i]) {
      assert CategoryWellFormed(cs[i]);
      if cs[i].id == id {
        var es, es' := cs[i].expenses, r[i].expenses;
        assert es' == es + [NewExpense(d, newId)];
        forall j, k | 0 <= j < k < |es'| ensures es'[j].id != es'[k].id {
          if k == |es| {
            assert es'[j] == cs[i].expenses[j];
          }
        }
      }
    }
    assert UniqueCategoryIds(r) by {
      forall i, j | 0 <= i < j < |r| ensures r[i].id != r[j].id {
        assert cs[i].id != cs[j].id;
      }
    }
  }

  lemma EditAllocationWellFormed(b: BudgetData, id: string, amount: real)
    requires WellFormed(b) && amount >= 0.0
    ensures WellFormed(EditAllocation(b, id, amount))
  {
    EditAllocationIsUpdate(b, id, amount);
    UpdateCategoryWellFormed(b, id, AllocationPatch(amount));
  }

  /** A fresh category id keeps category ids distinct. */
  lemma AddCategoryWellFormed(b: BudgetData, name: string, newId: string)
    requires WellFormed(b)
    requires !HasCategoryId(b.categories, newId)
    ensures WellFormed(AddCategory(b, name, newId))
  {
    var cs, r := b.categories, AddCategory(b, name, newId).categories;
    forall i, j | 0 <= i < j < |r| ensures r[i].id != r[j].id {
      if j == |cs| {
        assert r[i] == cs[i];
      } else {
        assert r[i] == cs[i] && r[j] == cs[j];
      }
    }
    forall i | 0 <= i < |r| ensures CategoryWellFormed(r[i]) {
      if i < |cs| { assert r[i] == cs[i]; }
    }
  }

  /** A sequence with distinct ids stays so without its head, and the head's id
      does not recur in the tail. */
  lemma UniqueTail(cs: seq<Category>)
    requires UniqueCategoryIds(cs) && cs != []
    ensures UniqueCategoryIds(cs[1..])
    ensures forall c :: c in cs[1..] ==> c.id != cs[0].id
  {
    forall i, j | 0 <= i < j < |cs[1..]| ensures cs[1..][i].id != cs[1..][j].id {
      assert cs[1..][i] == cs[i + 1] && cs[1..][j] == cs[j + 1];
    }
    forall c | c in cs[1..] ensures c.id != cs[0].id {
      var k :| 0 <= k < |cs[1..]| && cs[1..][k] == c;
      assert cs[k + 1] == c;
    }
  }

  lemma UniqueCons(x: Category, rest: seq<Category>)
    requires UniqueCategoryIds(rest)
    requires forall c :: c in rest ==> c.id != x.id
    ensures UniqueCategoryIds([x] + rest)
  {
    var r := [x] + rest;
    forall i, j | 0 <= i < j < |r| ensures r[i].id != r[j].id {
      assert r[j] == rest[j - 1];
      if i > 0 { assert r[i] == rest[i - 1]; }
    }
  }

  /** Two additions under the same name with two different fresh ids give two
      distinct categories, both carrying that name, at the end. */
  lemma AddCategoryTwice(b: BudgetData, name: string, id1: string, id2: string)
    requires WellFormed(b)
    requires id1 != id2 && !HasCategoryId(b.categories, id1) && !HasCategoryId(b.categories, id2)
    ensures var r := AddCategory(AddCategory(b, name, id1), name, id2).categories;
            && WellFormed(AddCategory(AddCategory(b, name, id1), name, id2))
            && |r| == |b.categories| + 2
            && r[|r| - 2].name == name && r[|r| - 1].name == name
            && r[|r| - 2].id != r[|r| - 1].id
  {
    var b1 := AddCategory(b, name, id1);
    AddCategoryWellFormed(b, name, id1);
    assert !HasCategoryId(b1.categories, id2) by {
      forall i | 0 <= i < |b1.categories| ensures b1.categories[i].id != id2 {
        if i < |b.categories| { assert b1.categories[i] == b.categories[i]; }
      }
    }
    AddCategoryWellFormed(b1, name, id2);
  }

  /** Removing keeps distinct ids distinct. */
  lemma {:induction false} FilterOutKeepsUnique(cs: seq<Category>, id: string)
    requires UniqueCategoryIds(cs)
    ensures UniqueCategoryIds(FilterOutId(cs, id))
  {
    if cs != [] {
      UniqueTail(cs);
      FilterOutKeepsUnique(cs[1..], id);
      if cs[0].id != id {
        UniqueCons(cs[0], FilterOutId(cs[1..], id));
      }
    }
  }

  lemma RemoveCategoryWellFormed(b: BudgetData, id: string)
    requires WellFormed(b)
    ensures WellFormed(RemoveCategory(b, id))
  {
    FilterOutKeepsUnique(b.categories, id);
    var r := RemoveCategory(b, id).categories;
    forall i | 0 <= i < |r| ensures CategoryWellFormed(r[i]) {
      assert r[i] in b.categories;
    }
  }
}
