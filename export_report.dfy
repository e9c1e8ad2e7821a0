/** The pure body of `generateExportData` (services/firestore.ts): the fetched
    expenses and income are narrowed to a date range, summed, and the expense
    categories ranked. */
module ExportReport {
  import opened Base
  import opened Dates
  import opened Types
  import opened Sorting
  import opened Tally

  /** `date >= from && date <= to` on JavaScript dates. */
  predicate InRange(d: DateTime, from: DateTime, to: DateTime)
  {
    NotAfter(from, d) && NotAfter(d, to)
  }

  function ExpensesIn(es: seq<Expense>, from: DateTime, to: DateTime): seq<Expense>
  {
    Keep(es, (e: Expense) => InRange(e.date, from, to))
  }

  function IncomeIn(xs: seq<Income>, from: DateTime, to: DateTime): seq<Income>
  {
    Keep(xs, (x: Income) => InRange(x.date, from, to))
  }

  function AmountOf(c: CategoryAmount): real
  {
    c.amount
  }

  /** The five largest category totals: sort by amount, largest first, then
      `slice(0, 5)`. */
  function TopCategories(es: seq<Expense>): seq<CategoryAmount>
  {
    Take(SortDesc(CategoryTotals(es), AmountOf), 5)
  }

  /** The record `generateExportData` returns for already-fetched lists. */
  function ExportOf(es: seq<Expense>, xs: seq<Income>, budgets: seq<Budget>, from: DateTime, to: DateTime): ExportData
  {
    var fe := ExpensesIn(es, from, to);
    var fi := IncomeIn(xs, from, to);
    ExportData(fe, fi, budgets, from, to,
      ExportSummary(SumExpenses(fe), SumIncome(fi), SumIncome(fi) - SumExpenses(fe), TopCategories(fe)))
  }

  /** generateExportData after the fetch; the category dictionary is filled by a
      loop over the filtered expenses. */
  method GenerateExportData(es: seq<Expense>, xs: seq<Income>, budgets: seq<Budget>, from: DateTime, to: DateTime)
    returns (data: ExportData)
    ensures data == ExportOf(es, xs, budgets, from, to)
  {
    var filteredExpenses := ExpensesIn(es, from, to);
    var filteredIncome := IncomeIn(xs, from, to);
    var totalExpenses := SumExpenses(filteredExpenses);
    var totalIncome := SumIncome(filteredIncome);
    var netSavings := totalIncome - totalExpenses;

    var categoryTotals: seq<CategoryAmount> := [];
    var i := 0;
    while i < |filteredExpenses|
      invariant 0 <= i <= |filteredExpenses|
      invariant categoryTotals == CategoryTotals(filteredExpenses[..i])
    {
      var e := filteredExpenses[i];
      assert filteredExpenses[..i + 1][..i] == filteredExpenses[..i];
      categoryTotals := AddTo(categoryTotals, e.category, e.amount);
      i := i + 1;
    }
    assert filteredExpenses[..i] == filteredExpenses;

    var topCategories := Take(SortDesc(categoryTotals, AmountOf), 5);
    data := ExportData(filteredExpenses, filteredIncome, budgets, from, to,
      ExportSummary(totalExpenses, totalIncome, netSavings, topCategories));
  }

  /** The exported expenses and income are exactly the entries dated within the
      range (both ends included), in their original order. */
  lemma ExportedEntries(es: seq<Expense>, xs: seq<Income>, budgets: seq<Budget>, from: DateTime, to: DateTime)
    ensures var d := ExportOf(es, xs, budgets, from, to);
      IsSubsequence(d.expenses, es) && IsSubsequence(d.income, xs)
      && (forall e :: e in d.expenses <==> e in es && NotAfter(from, e.date) && NotAfter(e.date, to))
      && (forall x :: x in d.income <==> x in xs && NotAfter(from, x.date) && NotAfter(x.date, to))
      && d.budgets == budgets && d.from == from && d.to == to
  {
    KeepIsSubsequence(es, (e: Expense) => InRange(e.date, from, to));
    KeepIsSubsequence(xs, (x: Income) => InRange(x.date, from, to));
    forall e ensures e in ExpensesIn(es, from, to) <==> e in es && InRange(e.date, from, to) {
      KeepMembers(es, (e: Expense) => InRange(e.date, from, to), e);
    }
    forall x ensures x in IncomeIn(xs, from, to) <==> x in xs && InRange(x.date, from, to) {
      KeepMembers(xs, (x: Income) => InRange(x.date, from, to), x);
    }
  }

  /** Net savings is income minus expenses, and the category totals of the
      exported expenses add up to their total. */
  lemma ExportedTotals(es: seq<Expense>, xs: seq<Income>, budgets: seq<Budget>, from: DateTime, to: DateTime)
    ensures var d := ExportOf(es, xs, budgets, from, to);
      d.summary.totalExpenses == SumExpenses(d.expenses)
      && d.summary.totalIncome == SumIncome(d.income)
      && d.summary.netSavings == d.summary.totalIncome - d.summary.totalExpenses
      && SumTotals(CategoryTotals(d.expenses)) == d.summary.totalExpenses
  {
    CategoryTotalsCorrect(ExpensesIn(es, from, to));
  }

  /** Every category total is a category of the given expenses holding that
      category's sum. */
  lemma TotalEntryFacts(es: seq<Expense>, t: CategoryAmount)
    requires t in CategoryTotals(es)
    ensures exists i :: 0 <= i < |es| && es[i].category == t.category
    ensures t.amount == CategorySum(es, t.category)
  {
    var ts := CategoryTotals(es);
    CategoryTotalsKeys(es);
    var k :| 0 <= k < |ts| && ts[k] == t;
    CategoriesIndex(ts, k);
    assert Categories(ts)[k] in Categories(ts);
    EntryIsCategorySum(es, k);
  }

  /** At most five top categories, largest first; each is a category of the given
      expenses holding that category's sum, and no category left out has a larger
      total than one shown. */
  lemma TopCategoriesFacts(es: seq<Expense>)
    ensures var top := TopCategories(es);
      |top| <= 5
      && (forall j, k :: 0 <= j < k < |top| ==> top[j].amount >= top[k].amount)
      && (forall j :: 0 <= j < |top| ==>
            (exists i :: 0 <= i < |es| && es[i].category == top[j].category)
            && top[j].amount == CategorySum(es, top[j].category))
      && (forall t, j :: t in CategoryTotals(es) && t !in top && 0 <= j < |top| ==> top[j].amount >= t.amount)
  {
    var ts := CategoryTotals(es);
    var top := TopCategories(es);
    TopFacts(ts, AmountOf, 5);
    forall j | 0 <= j < |top|
      ensures (exists i :: 0 <= i < |es| && es[i].category == top[j].category)
        && top[j].amount == CategorySum(es, top[j].category)
    {
      assert top[j] in top;
      TotalEntryFacts(es, top[j]);
    }
    forall j, k | 0 <= j < k < |top| ensures top[j].amount >= top[k].amount {
      assert AmountOf(top[j]) >= AmountOf(top[k]);
    }
    forall t, j | t in ts && t !in top && 0 <= j < |top| ensures top[j].amount >= t.amount {
      assert AmountOf(top[j]) >= AmountOf(t);
    }
  }
}
