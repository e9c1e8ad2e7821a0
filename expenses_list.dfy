/** The expense list screen (components/EnhancedExpensesList.tsx): the filter
    pipeline over the loaded expenses, the header total, the active-filter flag,
    the multi-selection and the saved filters. */
module ExpensesList {
  import opened Base
  import opened Text
  import opened Dates
  import opened Types
  import opened Tally
  import opened AdvancedFilters

  /** What applyFilters reads: the search box, the criteria record and the reading
      of date text (`new Date(text)`, whose format rules are the runtime's; `None`
      is an invalid date). */
  datatype Query = Query(searchBox: string, filters: ExpenseFilters, parseDate: string -> Option<DateTime>)

  /** `searchQuery || filters.searchQuery`: the search box wins when it is
      non-empty. */
  function ActiveQuery(q: Query): string
  {
    if q.searchBox != "" then q.searchBox else q.filters.searchQuery
  }

  /** Case-insensitive substring match on the description, the category, the notes
      or any tag. */
  predicate MatchesSearch(e: Expense, query: string)
  {
    var lq := ToLower(query);
    Contains(ToLower(e.description), lq)
    || Contains(ToLower(e.category), lq)
    || (e.notes.Some? && Contains(ToLower(e.notes.value), lq))
    || (e.tags.Some? && exists t :: t in e.tags.value && Contains(ToLower(t), lq))
  }

  /** `!!expense.receiptUrl`. */
  predicate HasReceiptUrl(e: Expense)
  {
    e.receiptUrl.Some? && e.receiptUrl.value != ""
  }

  /** The number of filter steps, in source order: search, categories,
      currencies, date from, date to, minimum, maximum, receipt, recurring. */
  const Steps: nat := 9

  /** Whether step `k` runs (the `if` in front of it). */
  predicate Active(k: nat, q: Query)
  {
    var f := q.filters;
    if k == 0 then ActiveQuery(q) != ""
    else if k == 1 then f.categories != []
    else if k == 2 then f.currencies != []
    else if k == 3 then f.dateFrom != ""
    else if k == 4 then f.dateTo != ""
    else if k == 5 then f.minAmount != ""
    else if k == 6 then f.maxAmount != ""
    else if k == 7 then f.hasReceipt.Some?
    else f.isRecurring.Some?
  }

  /** The callback step `k` filters with. An unreadable date or amount bound is
      NaN in the source, and every comparison with it fails. */
  predicate Test(k: nat, q: Query, e: Expense)
  {
    var f := q.filters;
    if k == 0 then MatchesSearch(e, ActiveQuery(q))
    else if k == 1 then e.category in f.categories
    else if k == 2 then e.currency in f.currencies
    else if k == 3 then var d := q.parseDate(f.dateFrom); d.Some? && EpochMs(e.date) >= EpochMs(d.value)
    else if k == 4 then var d := q.parseDate(f.dateTo); d.Some? && EpochMs(e.date) <= EpochMs(d.value)
    else if k == 5 then var m := ParseFloat(f.minAmount); m.Some? && e.amount >= m.value
    else if k == 6 then var m := ParseFloat(f.maxAmount); m.Some? && e.amount <= m.value
    else if k == 7 then (match f.hasReceipt case None => true case Some(b) => if b then HasReceiptUrl(e) else !HasReceiptUrl(e))
    else match f.isRecurring case None => true case Some(b) => e.isRecurring == b
  }

  /** Step `k` lets `e` through: it does not run, or its callback accepts `e`. */
  predicate Criterion(k: nat, q: Query, e: Expense)
  {
    Active(k, q) ==> Test(k, q, e)
  }

  /** `e` passes the first `k` steps. */
  predicate UpTo(k: nat, q: Query, e: Expense)
  {
    forall j | 0 <= j < k :: Criterion(j, q, e)
  }

  /** `e` survives the whole pipeline. */
  predicate Matches(q: Query, e: Expense)
  {
    UpTo(Steps, q, e)
  }

  /** The expenses that pass the first `k` steps, in their order. */
  function Survivors(s: seq<Expense>, q: Query, k: nat): seq<Expense>
  {
    Keep(s, e => UpTo(k, q, e))
  }

  /** The list applyFilters shows. */
  function Shown(s: seq<Expense>, q: Query): seq<Expense>
  {
    Keep(s, e => Matches(q, e))
  }

  /** One step of the pipeline: running it (when its condition holds) or skipping
      it takes the survivors of `k` steps to the survivors of `k + 1`. */
  lemma Advance(s: seq<Expense>, q: Query, k: nat, step: Expense -> bool)
    requires k < Steps
    requires forall e :: step(e) == Test(k, q, e)
    ensures Active(k, q) ==> Keep(Survivors(s, q, k), step) == Survivors(s, q, k + 1)
    ensures !Active(k, q) ==> Survivors(s, q, k) == Survivors(s, q, k + 1)
  {
    var next := (e: Expense) => UpTo(k + 1, q, e);
    forall e ensures next(e) == (UpTo(k, q, e) && Criterion(k, q, e)) {
      if UpTo(k, q, e) && Criterion(k, q, e) {
        forall j | 0 <= j < k + 1 ensures Criterion(j, q, e) {
        }
      }
    }
    if Active(k, q) {
      KeepKeep(s, e => UpTo(k, q, e), step, next);
    } else {
      KeepSame(s, e => UpTo(k, q, e), next);
    }
  }

  /** No step has run yet: everything survives; all steps have run: the survivors
      are the shown list. */
  lemma SurvivorsEnds(s: seq<Expense>, q: Query)
    ensures Survivors(s, q, 0) == s
    ensures Survivors(s, q, Steps) == Shown(s, q)
  {
    KeepTrue(s, e => UpTo(0, q, e));
    KeepSame(s, e => UpTo(Steps, q, e), e => Matches(q, e));
  }

  /** One guarded `filtered = filtered.filter(step)` of applyFilters. */
  method RunStep(s: seq<Expense>, q: Query, k: nat, filtered: seq<Expense>, run: bool, step: Expense -> bool)
    returns (r: seq<Expense>)
    requires k < Steps
    requires filtered == Survivors(s, q, k)
    requires run == Active(k, q)
    requires forall e :: step(e) == Test(k, q, e)
    ensures r == Survivors(s, q, k + 1)
  {
    Advance(s, q, k, step);
    if run {
      r := Keep(filtered, step);
    } else {
      r := filtered;
    }
  }

  /** The search, category and currency steps of applyFilters. */
  method FilterByText(expenses: seq<Expense>, q: Query, filtered: seq<Expense>) returns (r: seq<Expense>)
    requires filtered == Survivors(expenses, q, 0)
    ensures r == Survivors(expenses, q, 3)
  {
    var f := q.filters;
    r := filtered;
    var query := if q.searchBox != "" then q.searchBox else f.searchQuery;
    var bySearch := (e: Expense) => MatchesSearch(e, query);
    r := RunStep(expenses, q, 0, r, q.searchBox != "" || f.searchQuery != "", bySearch);
    var byCategory := (e: Expense) => e.category in f.categories;
    r := RunStep(expenses, q, 1, r, |f.categories| > 0, byCategory);
    var byCurrency := (e: Expense) => e.currency in f.currencies;
    r := RunStep(expenses, q, 2, r, |f.currencies| > 0, byCurrency);
  }

  /** The date and amount bound steps of applyFilters. */
  method FilterByRange(expenses: seq<Expense>, q: Query, filtered: seq<Expense>) returns (r: seq<Expense>)
    requires filtered == Survivors(expenses, q, 3)
    ensures r == Survivors(expenses, q, 7)
  {
    var f := q.filters;
    r := filtered;
    var from := q.parseDate(f.dateFrom);
    var byFrom := (e: Expense) => from.Some? && EpochMs(e.date) >= EpochMs(from.value);
    r := RunStep(expenses, q, 3, r, f.dateFrom != "", byFrom);
    var to := q.parseDate(f.dateTo);
    var byTo := (e: Expense) => to.Some? && EpochMs(e.date) <= EpochMs(to.value);
    r := RunStep(expenses, q, 4, r, f.dateTo != "", byTo);
    var min := ParseFloat(f.minAmount);
    var byMin := (e: Expense) => min.Some? && e.amount >= min.value;
    r := RunStep(expenses, q, 5, r, f.minAmount != "", byMin);
    var max := ParseFloat(f.maxAmount);
    var byMax := (e: Expense) => max.Some? && e.amount <= max.value;
    r := RunStep(expenses, q, 6, r, f.maxAmount != "", byMax);
  }

  /** The receipt and recurrence steps of applyFilters. */
  method FilterByFlags(expenses: seq<Expense>, q: Query, filtered: seq<Expense>) returns (r: seq<Expense>)
    requires filtered == Survivors(expenses, q, 7)
    ensures r == Survivors(expenses, q, 9)
  {
    var f := q.filters;
    r := filtered;
    var byReceipt := (e: Expense) => match f.hasReceipt case None => true case Some(b) => if b then HasReceiptUrl(e) else !HasReceiptUrl(e);
    r := RunStep(expenses, q, 7, r, f.hasReceipt.Some?, byReceipt);
    var byRecurring := (e: Expense) => match f.isRecurring case None => true case Some(b) => e.isRecurring == b;
    r := RunStep(expenses, q, 8, r, f.isRecurring.Some?, byRecurring);
  }

  /** applyFilters: the steps run one after the other on a shrinking list. */
  method FilterExpenses(expenses: seq<Expense>, q: Query) returns (filtered: seq<Expense>)
    ensures filtered == Shown(expenses, q)
    ensures IsSubsequence(filtered, expenses)
    ensures forall e :: e in filtered <==> e in expenses && Matches(q, e)
  {
    SurvivorsEnds(expenses, q);
    filtered := FilterByText(expenses, q, expenses);
    filtered := FilterByRange(expenses, q, filtered);
    filtered := FilterByFlags(expenses, q, filtered);
    KeepIsSubsequence(expenses, e => Matches(q, e));
    forall e ensures e in filtered <==> e in expenses && Matches(q, e) {
      KeepMembers(expenses, e => Matches(q, e), e);
    }
  }

  /** What survives the pipeline: each criterion constrains only when it is set,
      the search box takes precedence over the record's search text, bounds are
      inclusive, and the tag list is not consulted. */
  lemma MatchesMeaning(q: Query, e: Expense)
    ensures var f := q.filters;
      Matches(q, e) <==>
        (ActiveQuery(q) != "" ==> MatchesSearch(e, ActiveQuery(q)))
        && (f.categories != [] ==> e.category in f.categories)
        && (f.currencies != [] ==> e.currency in f.currencies)
        && (f.dateFrom != "" ==> q.parseDate(f.dateFrom).Some? && EpochMs(e.date) >= EpochMs(q.parseDate(f.dateFrom).value))
        && (f.dateTo != "" ==> q.parseDate(f.dateTo).Some? && EpochMs(e.date) <= EpochMs(q.parseDate(f.dateTo).value))
        && (f.minAmount != "" ==> ParseFloat(f.minAmount).Some? && e.amount >= ParseFloat(f.minAmount).value)
        && (f.maxAmount != "" ==> ParseFloat(f.maxAmount).Some? && e.amount <= ParseFloat(f.maxAmount).value)
        && (f.hasReceipt.Some? ==> f.hasReceipt.value == HasReceiptUrl(e))
        && (f.isRecurring.Some? ==> f.isRecurring.value == e.isRecurring)
  {
    assert Criterion(0, q, e) && Criterion(1, q, e) && Criterion(2, q, e) && Criterion(3, q, e)
      && Criterion(4, q, e) && Criterion(5, q, e) && Criterion(6, q, e) && Criterion(7, q, e)
      && Criterion(8, q, e)
      ==> Matches(q, e);
  }

  /** The tag list of the criteria never changes the result. */
  lemma TagsIgnored(q: Query, e: Expense, tags: seq<string>)
    ensures Matches(q.(filters := q.filters.(tags := tags)), e) == Matches(q, e)
  {
    MatchesMeaning(q, e);
    MatchesMeaning(q.(filters := q.filters.(tags := tags)), e);
  }

  /** With an empty search box and cleared criteria every expense is shown, in
      order. */
  lemma ClearedKeepsAll(expenses: seq<Expense>, parseDate: string -> Option<DateTime>)
    ensures Shown(expenses, Query("", Cleared, parseDate)) == expenses
  {
    var q := Query("", Cleared, parseDate);
    forall e ensures Matches(q, e) {
      MatchesMeaning(q, e);
    }
    KeepTrue(expenses, e => Matches(q, e));
  }

  /** A set bound that does not read as a date or a number excludes every expense. */
  lemma UnreadableBoundExcludesAll(q: Query, e: Expense)
    requires (q.filters.dateFrom != "" && q.parseDate(q.filters.dateFrom).None?)
      || (q.filters.dateTo != "" && q.parseDate(q.filters.dateTo).None?)
      || (q.filters.minAmount != "" && ParseFloat(q.filters.minAmount).None?)
      || (q.filters.maxAmount != "" && ParseFloat(q.filters.maxAmount).None?)
    ensures !Matches(q, e)
  {
    MatchesMeaning(q, e);
  }

  /** The header total: the sum of the shown amounts. */
  function TotalExpenses(filtered: seq<Expense>): real
  {
    SumExpenses(filtered)
  }

  /** hasActiveFilters: some list is non-empty, or some other field is neither ''
      nor `null`. */
  predicate HasActiveFilters(f: ExpenseFilters)
  {
    f.searchQuery != "" || |f.categories| > 0 || |f.currencies| > 0 || f.dateFrom != "" || f.dateTo != ""
    || f.minAmount != "" || f.maxAmount != "" || f.hasReceipt.Some? || f.isRecurring.Some? || |f.tags| > 0
  }

  /** The criteria are active exactly when they differ from the cleared record, so
      clearAllFilters always deactivates them. */
  lemma ActiveIffNotCleared(f: ExpenseFilters)
    ensures HasActiveFilters(f) <==> f != Cleared
    ensures !HasActiveFilters(Cleared)
  {
  }

  /** A saved filter: a name and the criteria saved under it. */
  datatype SavedFilter = SavedFilter(name: string, filters: ExpenseFilters)

  /** handleDeleteSavedFilter: `filter(f => f.name !== name)`. */
  function RemoveNamed(saved: seq<SavedFilter>, name: string): (r: seq<SavedFilter>)
  {
    if saved == [] then []
    else (if saved[0].name != name then [saved[0]] else []) + RemoveNamed(saved[1..], name)
  }

  /** Deleting removes every saved filter with that name and keeps the others, in
      their order. */
  lemma {:induction false} RemoveNamedFacts(saved: seq<SavedFilter>, name: string)
    ensures forall s :: s in RemoveNamed(saved, name) <==> s in saved && s.name != name
    ensures IsSubsequence(RemoveNamed(saved, name), saved)
    decreases |saved|
  {
    if saved != [] {
      RemoveNamedFacts(saved[1..], name);
      var r := RemoveNamed(saved, name);
      var rest := RemoveNamed(saved[1..], name);
      assert saved == [saved[0]] + saved[1..];
      if saved[0].name != name {
        assert r == [saved[0]] + rest && r[0] == saved[0] && r[1..] == rest;
      } else {
        assert r == rest;
      }
    }
  }

  /** The list screen's state. */
  class ExpensesScreen {
    const parseDate: string -> Option<DateTime>
    var expenses: seq<Expense>
    var filteredExpenses: seq<Expense>
    var selectedExpenses: seq<string>
    var isSelectionMode: bool
    var searchQuery: string
    var filters: ExpenseFilters
    var savedFilters: seq<SavedFilter>

    constructor(parseDate: string -> Option<DateTime>)
      ensures this.parseDate == parseDate
      ensures expenses == [] && filteredExpenses == [] && selectedExpenses == [] && !isSelectionMode
      ensures searchQuery == "" && filters == Cleared && savedFilters == []
    {
      this.parseDate := parseDate;
      expenses := [];
      filteredExpenses := [];
      selectedExpenses := [];
      isSelectionMode := false;
      searchQuery := "";
      filters := Cleared;
      savedFilters := [];
    }

    /** applyFilters writes the pipeline's result into the shown list. */
    method ApplyFilters()
      modifies this
      ensures filteredExpenses == Shown(expenses, Query(searchQuery, filters, parseDate))
      ensures expenses == old(expenses) && selectedExpenses == old(selectedExpenses)
      ensures isSelectionMode == old(isSelectionMode) && searchQuery == old(searchQuery)
      ensures filters == old(filters) && savedFilters == old(savedFilters)
    {
      filteredExpenses := FilterExpenses(expenses, Query(searchQuery, filters, parseDate));
    }

    /** toggleExpenseSelection. */
    method ToggleExpenseSelection(id: string)
      modifies this
      ensures selectedExpenses == ToggleMember(old(selectedExpenses), id)
      ensures id in selectedExpenses <==> id !in old(selectedExpenses)
      ensures forall other :: other != id ==> (other in selectedExpenses <==> other in old(selectedExpenses))
      ensures expenses == old(expenses) && filteredExpenses == old(filteredExpenses)
      ensures isSelectionMode == old(isSelectionMode) && searchQuery == old(searchQuery)
      ensures filters == old(filters) && savedFilters == old(savedFilters)
    {
      selectedExpenses := ToggleMember(selectedExpenses, id);
    }

    method EnterSelectionMode()
      modifies this
      ensures isSelectionMode && selectedExpenses == []
      ensures expenses == old(expenses) && filteredExpenses == old(filteredExpenses)
      ensures searchQuery == old(searchQuery) && filters == old(filters) && savedFilters == old(savedFilters)
    {
      isSelectionMode := true;
      selectedExpenses := [];
    }

    method ExitSelectionMode()
      modifies this
      ensures !isSelectionMode && selectedExpenses == []
      ensures expenses == old(expenses) && filteredExpenses == old(filteredExpenses)
      ensures searchQuery == old(searchQuery) && filters == old(filters) && savedFilters == old(savedFilters)
    {
      isSelectionMode := false;
      selectedExpenses := [];
    }

    /** handleSaveFilter appends; names are not checked for repeats. */
    method HandleSaveFilter(name: string, f: ExpenseFilters)
      modifies this
      ensures savedFilters == old(savedFilters) + [SavedFilter(name, f)]
      ensures expenses == old(expenses) && filteredExpenses == old(filteredExpenses)
      ensures selectedExpenses == old(selectedExpenses) && isSelectionMode == old(isSelectionMode)
      ensures searchQuery == old(searchQuery) && filters == old(filters)
    {
      savedFilters := savedFilters + [SavedFilter(name, f)];
    }

    /** handleLoadFilter replaces the criteria. */
    method HandleLoadFilter(f: ExpenseFilters)
      modifies this
      ensures filters == f
      ensures expenses == old(expenses) && filteredExpenses == old(filteredExpenses)
      ensures selectedExpenses == old(selectedExpenses) && isSelectionMode == old(isSelectionMode)
      ensures searchQuery == old(searchQuery) && savedFilters == old(savedFilters)
    {
      filters := f;
    }

    method HandleDeleteSavedFilter(name: string)
      modifies this
      ensures savedFilters == RemoveNamed(old(savedFilters), name)
      ensures forall s :: s in savedFilters <==> s in old(savedFilters) && s.name != name
      ensures expenses == old(expenses) && filteredExpenses == old(filteredExpenses)
      ensures selectedExpenses == old(selectedExpenses) && isSelectionMode == old(isSelectionMode)
      ensures searchQuery == old(searchQuery) && filters == old(filters)
    {
      RemoveNamedFacts(savedFilters, name);
      savedFilters := RemoveNamed(savedFilters, name);
    }
  }
}
