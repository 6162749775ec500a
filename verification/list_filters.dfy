/**
 The search boxes and totals of two list pages: the movement list of the
 stock page (app/estoque/page.tsx), and the expenses page
 (app/despesas/page.tsx) with its delete handler.
 */
module ListFilters {
  import opened Domain
  import opened Seqs
  import opened Text

  // ---------------------------------------------------------------------
  // Stock page: movement list
  // ---------------------------------------------------------------------

  /** A movement as the stock page loads it, joined with its product's name
      and category. */
  datatype ListedMovement = ListedMovement(movement: Movement, productName: string, productCategory: string)

  /** The type selector: "todos", or one of the two types. */
  datatype TypeFilter = AllTypes | OnlyType(kind: Kind)

  /** `mov.motivo && ...`: a null or empty reason never matches. */
  predicate ReasonMatches(reason: Option<string>, term: string)
  {
    reason.Some? && reason.value != "" && MatchesIgnoringCase(reason.value, term)
  }

  /** The search term occurs, ignoring case, in the product's name, its
      category or the movement's reason. */
  predicate MatchesSearch(m: ListedMovement, term: string)
  {
    MatchesIgnoringCase(m.productName, term)
    || MatchesIgnoringCase(m.productCategory, term)
    || ReasonMatches(m.movement.reason, term)
  }

  predicate MatchesType(m: ListedMovement, filter: TypeFilter)
  {
    filter.AllTypes? || m.movement.kind == filter.kind
  }

  predicate ShowMovement(m: ListedMovement, term: string, filter: TypeFilter)
  {
    MatchesSearch(m, term) && MatchesType(m, filter)
  }

  /** `filteredMovimentacoes`: the movements that match both the search and
      the type selector. With no search and "todos" the list is shown whole. */
  function FilterMovements(movements: seq<ListedMovement>, term: string, filter: TypeFilter): (r: seq<ListedMovement>)
    ensures forall m :: m in r <==> m in movements && MatchesSearch(m, term) && MatchesType(m, filter)
    ensures term == "" && filter == AllTypes ==> r == movements
  {
    var keep := (m: ListedMovement) => ShowMovement(m, term, filter);
    if term == "" && filter == AllTypes then
      forall k | 0 <= k < |movements|
        ensures keep(movements[k])
      {
        EmptyTermMatches(movements[k].productName);
      }
      FilterKeepsAll(movements, keep);
      Filter(movements, keep)
    else
      Filter(movements, keep)
  }

  /** The filtered list keeps the page's order, and a movement with no reason
      is shown only if its product's name or category matches. */
  lemma FilterMovementsKeepsOrder(movements: seq<ListedMovement>, term: string, filter: TypeFilter)
    ensures IsSubsequence(FilterMovements(movements, term, filter), movements)
    ensures forall m :: m in FilterMovements(movements, term, filter) && m.movement.reason.None? ==>
              MatchesIgnoringCase(m.productName, term) || MatchesIgnoringCase(m.productCategory, term)
  {
    FilterIsSubsequence(movements, (m: ListedMovement) => ShowMovement(m, term, filter));
  }

  /** Under the same search, the "entrada" list and the "saida" list split
      the "todos" list: each movement shown under "todos" is shown under
      exactly one of the two types. */
  lemma {:induction false} TypeFiltersPartition(movements: seq<ListedMovement>, term: string)
    ensures |FilterMovements(movements, term, OnlyType(Entrada))| + |FilterMovements(movements, term, OnlyType(Saida))|
            == |FilterMovements(movements, term, AllTypes)|
    decreases |movements|
  {
    if |movements| > 0 {
      TypeFiltersPartition(movements[1..], term);
    }
  }

  // ---------------------------------------------------------------------
  // Expenses page
  // ---------------------------------------------------------------------

  /** `filteredDespesas`: the expenses whose description contains the search
      term, ignoring case, in the list's order. */
  function FilterExpenses(expenses: seq<Expense>, term: string): (r: seq<Expense>)
    ensures forall e :: e in r <==> e in expenses && MatchesIgnoringCase(e.description, term)
    ensures term == "" ==> r == expenses
    ensures IsSubsequence(r, expenses)
  {
    var keep := (e: Expense) => MatchesIgnoringCase(e.description, term);
    FilterIsSubsequence(expenses, keep);
    if term == "" then
      FilterKeepsAll(expenses, keep);
      Filter(expenses, keep)
    else
      Filter(expenses, keep)
  }

  /** `totalDespesas`: the amounts of the expenses the search shows, added
      up; 0 for no expenses, and the total of all with an empty search. */
  function ShownTotal(expenses: seq<Expense>, term: string): (t: int)
    ensures |expenses| == 0 ==> t == 0
    ensures term == "" ==> t == SumBy(expenses, ExpenseAmount)
  {
    SumBy(FilterExpenses(expenses, term), ExpenseAmount)
  }

  /** The shown total counts only what the search shows: one more expense
      raises it by its amount exactly when its description matches the
      search, and leaves it unchanged otherwise. */
  lemma ShownTotalAppend(expenses: seq<Expense>, e: Expense, term: string)
    ensures ShownTotal(expenses + [e], term)
            == ShownTotal(expenses, term) + (if MatchesIgnoringCase(e.description, term) then e.amount else 0)
  {
    SumByFilterAppend(expenses, [e], (x: Expense) => MatchesIgnoringCase(x.description, term), ExpenseAmount);
    assert [e][1..] == [];
  }

  /** With no negative amounts the shown total lies between 0 and the total
      of all expenses, and an empty search shows the total of all. */
  lemma ShownTotalBounds(expenses: seq<Expense>, term: string)
    requires forall k :: 0 <= k < |expenses| ==> expenses[k].amount >= 0
    ensures 0 <= ShownTotal(expenses, term) <= SumBy(expenses, ExpenseAmount)
    ensures term == "" ==> ShownTotal(expenses, term) == SumBy(expenses, ExpenseAmount)
  {
    var keep := (e: Expense) => MatchesIgnoringCase(e.description, term);
    var shown := FilterExpenses(expenses, term);
    assert forall k :: 0 <= k < |shown| ==> shown[k] in expenses;
    SumByBounds(shown, ExpenseAmount);
    SumByFilterAtMost(expenses, keep, ExpenseAmount);
  }

  /** The expenses page state the delete handler touches: the loaded list,
      the expense awaiting confirmation, and the busy flag. */
  datatype ExpensesPage = ExpensesPage(expenses: seq<Expense>, pendingDelete: Option<Expense>, deleting: bool)

  /** The list without the expense of id `id`. */
  function WithoutExpense(expenses: seq<Expense>, id: string): seq<Expense>
  {
    Filter(expenses, (e: Expense) => e.id != id)
  }

  /** `deleteDespesa(id)`: when the store deletes the row, the local list
      loses exactly the expenses with that id; when it fails the list is
      kept. Either way the busy flag and the pending expense are cleared. */
  function DeleteExpense(page: ExpensesPage, id: string, succeeded: bool): (r: ExpensesPage)
    ensures r.pendingDelete.None? && !r.deleting
    ensures succeeded ==> forall e :: e in r.expenses <==> e in page.expenses && e.id != id
    ensures !succeeded ==> r.expenses == page.expenses
  {
    ExpensesPage(if succeeded then WithoutExpense(page.expenses, id) else page.expenses, None, false)
  }

  /** A successful delete keeps the other expenses in order, leaves the list
      as it was when no expense has that id, and with no negative amounts
      never raises the total. */
  lemma DeleteExpenseEffect(page: ExpensesPage, id: string)
    ensures IsSubsequence(DeleteExpense(page, id, true).expenses, page.expenses)
    ensures (forall k :: 0 <= k < |page.expenses| ==> page.expenses[k].id != id) ==>
              DeleteExpense(page, id, true).expenses == page.expenses
    ensures (forall k :: 0 <= k < |page.expenses| ==> page.expenses[k].amount >= 0) ==>
              SumBy(DeleteExpense(page, id, true).expenses, ExpenseAmount)
              <= SumBy(page.expenses, ExpenseAmount)
  {
    var keep := (e: Expense) => e.id != id;
    FilterIsSubsequence(page.expenses, keep);
    if forall k :: 0 <= k < |page.expenses| ==> page.expenses[k].id != id {
      FilterKeepsAll(page.expenses, keep);
    }
    if forall k :: 0 <= k < |page.expenses| ==> page.expenses[k].amount >= 0 {
      SumByFilterAtMost(page.expenses, keep, ExpenseAmount);
    }
  }
}
