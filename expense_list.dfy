/** The history screen: load the stored list, narrow it by category and by an
    inclusive date range, and show the total of what remains. */
module ExpenseList {
  import opened Expenses
  import opened Lists

  /** The category filter picker: the 'All' sentinel or one category. */
  datatype CategoryChoice = All | Only(category: Category)

  /** The filter state; a missing date is a bound that was never chosen. */
  datatype Criteria = Criteria(category: CategoryChoice, startDate: Option<int>, endDate: Option<int>)

  predicate InCategory(choice: CategoryChoice, e: Expense)
  {
    choice.All? || e.category == choice.category.Name()
  }

  predicate OnOrAfter(startDate: Option<int>, e: Expense)
  {
    startDate.None? || e.date >= startDate.value
  }

  predicate OnOrBefore(endDate: Option<int>, e: Expense)
  {
    endDate.None? || e.date <= endDate.value
  }

  /** A record passes when it meets every active criterion. */
  predicate Matches(c: Criteria, e: Expense)
  {
    InCategory(c.category, e) && OnOrAfter(c.startDate, e) && OnOrBefore(c.endDate, e)
  }

  /** The specification of the filter: one pass with the conjunction of the criteria. */
  function Filtered(expenses: seq<Expense>, c: Criteria): seq<Expense>
  {
    Filter(e => Matches(c, e), expenses)
  }

  /** Soundness: everything shown has the chosen category (unless 'All') and
      lies within both chosen bounds, inclusive. */
  lemma {:induction false} FilteredSound(expenses: seq<Expense>, c: Criteria, e: Expense)
    requires e in Filtered(expenses, c)
    ensures e in expenses
    ensures c.category.Only? ==> e.category == c.category.category.Name()
    ensures c.startDate.Some? ==> c.startDate.value <= e.date
    ensures c.endDate.Some? ==> e.date <= c.endDate.value
  {
    FilterMembership(e => Matches(c, e), expenses, e);
  }

  /** Completeness: every record that meets all active criteria is shown. */
  lemma {:induction false} FilteredComplete(expenses: seq<Expense>, c: Criteria, e: Expense)
    requires e in expenses
    requires c.category.Only? ==> e.category == c.category.category.Name()
    requires c.startDate.Some? ==> c.startDate.value <= e.date
    requires c.endDate.Some? ==> e.date <= c.endDate.value
    ensures e in Filtered(expenses, c)
  {
    FilterMembership(e => Matches(c, e), expenses, e);
  }

  /** The result keeps the input's order: it is a subsequence of it. */
  lemma {:induction false} FilteredInOrder(expenses: seq<Expense>, c: Criteria)
    ensures IsSubsequence(Filtered(expenses, c), expenses)
  {
    FilterIsSubsequence(e => Matches(c, e), expenses);
  }

  /** Filtering the filtered list again with the same criteria changes nothing. */
  lemma {:induction false} FilteredIdempotent(expenses: seq<Expense>, c: Criteria)
    ensures Filtered(Filtered(expenses, c), c) == Filtered(expenses, c)
  {
    FilterIdempotent(e => Matches(c, e), expenses);
  }

  /** 'All' with no date bounds shows the full list. */
  lemma {:induction false} NoCriteriaShowsAll(expenses: seq<Expense>)
    ensures Filtered(expenses, Criteria(All, None, None)) == expenses
  {
    FilterKeepsAll(e => Matches(Criteria(All, None, None), e), expenses);
  }

  /** The state of the history screen. */
  class ExpenseListScreen {
    var expenses: seq<Expense>
    var filtered: seq<Expense>
    var criteria: Criteria

    /** Initially nothing is loaded, the category is 'All' and no dates are chosen. */
    constructor ()
      ensures expenses == [] && filtered == [] && criteria == Criteria(All, None, None)
    {
      expenses, filtered := [], [];
      criteria := Criteria(All, None, None);
    }

    /** fetchExpenses: an absent entry loads as the empty list; a corrupt
        one makes the read throw and leaves the list as it was. */
    method FetchExpenses(storage: Storage) returns (completed: bool)
      modifies this`expenses
      ensures completed <==> !storage.blob.Corrupt?
      ensures storage.blob.Absent? ==> expenses == []
      ensures storage.blob.Stored? ==> expenses == storage.blob.records
      ensures storage.blob.Corrupt? ==> expenses == old(expenses)
    {
      var stored := Load(storage.blob);
      if stored.None? {
        return false;
      }
      expenses := stored.value;
      completed := true;
    }

    /** applyFilters: the three conditional stages, one after the other,
        give exactly the one-pass conjunctive filter; `expenses` is untouched. */
    method ApplyFilters()
      modifies this`filtered
      ensures filtered == Filtered(expenses, criteria)
    {
      var c := criteria;
      ghost var byCategory := (e: Expense) => InCategory(c.category, e);
      ghost var fromStart := (e: Expense) => InCategory(c.category, e) && OnOrAfter(c.startDate, e);
      ghost var all := (e: Expense) => Matches(c, e);

      var data := expenses;
      if c.category.Only? {
        var name := c.category.category.Name();
        data := Filter((e: Expense) => e.category == name, data);
        FilterExtensional((e: Expense) => e.category == name, byCategory, expenses);
      } else {
        FilterKeepsAll(byCategory, expenses);
      }
      assert data == Filter(byCategory, expenses);

      if c.startDate.Some? {
        var start := c.startDate.value;
        data := Filter((e: Expense) => e.date >= start, data);
        FilterFusion(byCategory, (e: Expense) => e.date >= start, fromStart, expenses);
      } else {
        FilterExtensional(byCategory, fromStart, expenses);
      }
      assert data == Filter(fromStart, expenses);

      if c.endDate.Some? {
        var end := c.endDate.value;
        data := Filter((e: Expense) => e.date <= end, data);
        FilterFusion(fromStart, (e: Expense) => e.date <= end, all, expenses);
      } else {
        FilterExtensional(fromStart, all, expenses);
      }
      filtered := data;
    }
  }

  /** The total shown above the list is the sum of its parts: the total of
      the records a filter keeps plus the total of those it drops, taken per
      record in order, equals the total of the whole list. */
  lemma {:induction false} FilteredTotalSplits(expenses: seq<Expense>, c: Criteria)
    ensures Total(Filtered(expenses, c)) + Total(Filter((e: Expense) => !Matches(c, e), expenses)) == Total(expenses)
  {
    if expenses != [] {
      FilteredTotalSplits(expenses[1..], c);
      var x := expenses[0];
      if Matches(c, x) {
        assert Filtered(expenses, c) == [x] + Filtered(expenses[1..], c);
      } else {
        assert Filter(e => !Matches(c, e), expenses) == [x] + Filter(e => !Matches(c, e), expenses[1..]);
      }
    }
  }
}
