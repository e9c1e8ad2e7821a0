/** The chart computations of components/InteractiveCharts.tsx: the category pie
    data, the six-month trend buckets and the bar heights. */
module Charts {
  import opened Base
  import opened Dates
  import opened Types
  import opened Sorting
  import opened Tally

  /** One pie entry. `color` is the position in the six-colour theme palette
      (`colors_list`) the entry is painted with. */
  datatype ChartData = ChartData(name: string, value: real, color: nat, percentage: real)

  const PaletteSize: nat := 6

  /** `totalAmount > 0 ? (amount / totalAmount) * 100 : 0`. */
  function Percentage(amount: real, total: real): real
  {
    if total > 0.0 then amount / total * 100.0 else 0.0
  }

  /** The `map` over `Object.entries(categoryTotals)`: the entry at position `i`
      (counting from `start`) gets colour `i % 6`. */
  function Label(ts: seq<CategoryAmount>, start: nat, total: real): (r: seq<ChartData>)
    ensures |r| == |ts|
    ensures forall i :: 0 <= i < |ts| ==>
      r[i] == ChartData(ts[i].category, ts[i].amount, (start + i) % PaletteSize, Percentage(ts[i].amount, total))
    decreases |ts|
  {
    if ts == [] then []
    else
      var rest := Label(ts[1..], start + 1, total);
      var r := [ChartData(ts[0].category, ts[0].amount, start % PaletteSize, Percentage(ts[0].amount, total))] + rest;
      assert forall i :: 1 <= i < |ts| ==> r[i] == rest[i - 1] && ts[i] == ts[1..][i - 1] && start + i == (start + 1) + (i - 1);
      r
  }

  function ValueOf(d: ChartData): real
  {
    d.value
  }

  /** getCategoryData's result for the given expenses. */
  function CategoryData(es: seq<Expense>): seq<ChartData>
  {
    Take(SortDesc(Label(CategoryTotals(es), 0, SumExpenses(es)), ValueOf), PaletteSize)
  }

  /** getCategoryData: the totals dictionary is filled by a loop, then labelled,
      sorted by value and cut to six entries. */
  method GetCategoryData(expenses: seq<Expense>) returns (r: seq<ChartData>)
    ensures r == CategoryData(expenses)
  {
    var totalAmount := SumExpenses(expenses);
    var categoryTotals: seq<CategoryAmount> := [];
    var i := 0;
    while i < |expenses|
      invariant 0 <= i <= |expenses|
      invariant categoryTotals == CategoryTotals(expenses[..i])
    {
      var e := expenses[i];
      assert expenses[..i + 1][..i] == expenses[..i];
      categoryTotals := AddTo(categoryTotals, e.category, e.amount);
      i := i + 1;
    }
    assert expenses[..i] == expenses;
    r := Take(SortDesc(Label(categoryTotals, 0, totalAmount), ValueOf), PaletteSize);
  }

  /** Each shown entry is a category of the expenses; its value is that category's
      sum, its percentage is the value's share of the total (0 when the total is
      not positive), and its colour is its position before sorting, modulo 6. */
  lemma CategoryEntryFacts(es: seq<Expense>, d: ChartData)
    requires d in CategoryData(es)
    ensures exists i :: 0 <= i < |es| && es[i].category == d.name
    ensures d.value == CategorySum(es, d.name)
    ensures d.percentage == Percentage(d.value, SumExpenses(es))
    ensures exists k :: 0 <= k < |CategoryTotals(es)| && CategoryTotals(es)[k].category == d.name && d.color == k % PaletteSize
  {
    var ts := CategoryTotals(es);
    var ls := Label(ts, 0, SumExpenses(es));
    TopFacts(ls, ValueOf, PaletteSize);
    assert d in ls;
    var k :| 0 <= k < |ls| && ls[k] == d;
    CategoryTotalsKeys(es);
    CategoriesIndex(ts, k);
    assert Categories(ts)[k] in Categories(ts);
    EntryIsCategorySum(es, k);
  }

  /** At most six entries, by value largest first, and no category left out of the
      chart has a larger value than one shown. */
  lemma CategoryDataOrder(es: seq<Expense>)
    ensures var r := CategoryData(es);
      |r| <= PaletteSize && |r| == (if |CategoryTotals(es)| < PaletteSize then |CategoryTotals(es)| else PaletteSize)
      && (forall j, k :: 0 <= j < k < |r| ==> r[j].value >= r[k].value)
      && (forall t, j :: t in CategoryTotals(es) && 0 <= j < |r| && (forall d :: d in r ==> d.name != t.category)
            ==> r[j].value >= t.amount)
  {
    var ts := CategoryTotals(es);
    var ls := Label(ts, 0, SumExpenses(es));
    var r := CategoryData(es);
    TopFacts(ls, ValueOf, PaletteSize);
    forall j, k | 0 <= j < k < |r| ensures r[j].value >= r[k].value {
      assert ValueOf(r[j]) >= ValueOf(r[k]);
    }
    forall t, j | t in ts && 0 <= j < |r| && (forall d :: d in r ==> d.name != t.category)
      ensures r[j].value >= t.amount
    {
      var k :| 0 <= k < |ts| && ts[k] == t;
      assert ls[k].name == t.category && ls[k].value == t.amount;
      assert ls[k] !in r;
      assert ValueOf(r[j]) >= ValueOf(ls[k]);
    }
  }

  /** The sum of the percentages of a labelled list is the percentage of the sum. */
  lemma {:induction false} LabelPercentages(ts: seq<CategoryAmount>, start: nat, total: real)
    ensures PercentTotal(Label(ts, start, total)) == Percentage(SumTotals(ts), total)
    decreases |ts|
  {
    if ts != [] {
      var r := Label(ts, start, total);
      assert r[1..] == Label(ts[1..], start + 1, total);
      LabelPercentages(ts[1..], start + 1, total);
      if total > 0.0 {
        assert (ts[0].amount + SumTotals(ts[1..])) / total == ts[0].amount / total + SumTotals(ts[1..]) / total;
      }
    }
  }

  function PercentTotal(ds: seq<ChartData>): real
  {
    if ds == [] then 0.0 else ds[0].percentage + PercentTotal(ds[1..])
  }

  /** Before the cut to six entries, the percentages of all categories add up to
      100 whenever the total is positive. */
  lemma PercentagesSumTo100(es: seq<Expense>)
    requires SumExpenses(es) > 0.0
    ensures PercentTotal(Label(CategoryTotals(es), 0, SumExpenses(es))) == 100.0
  {
    var total := SumExpenses(es);
    CategoryTotalsSums(es);
    LabelPercentages(CategoryTotals(es), 0, total);
    WholeIs100(total);
  }

  lemma WholeIs100(total: real)
    requires total > 0.0
    ensures Percentage(total, total) == 100.0
  {
    assert total / total == 1.0;
  }

  // ------------------------------------------------- trend

  /** One bar group: the month, its short label, and the month's sums. */
  datatype TrendData = TrendData(year: int, month: int, period: string, expenses: real, income: real)

  /** `toLocaleDateString('default', { month: 'short' })` in the en-US locale. */
  function MonthShort(m: int): string
  {
    if m == 1 then "Jan" else if m == 2 then "Feb" else if m == 3 then "Mar"
    else if m == 4 then "Apr" else if m == 5 then "May" else if m == 6 then "Jun"
    else if m == 7 then "Jul" else if m == 8 then "Aug" else if m == 9 then "Sep"
    else if m == 10 then "Oct" else if m == 11 then "Nov" else "Dec"
  }

  function ExpensesInMonth(es: seq<Expense>, key: (int, int)): seq<Expense>
  {
    Keep(es, (e: Expense) => MonthKey(e.date) == key)
  }

  function IncomeInMonth(xs: seq<Income>, key: (int, int)): seq<Income>
  {
    Keep(xs, (x: Income) => MonthKey(x.date) == key)
  }

  /** The bucket at position `j` (0 is the oldest): the month `5 - j` months before
      the current one. */
  function Bucket(es: seq<Expense>, xs: seq<Income>, now: DateTime, j: int): TrendData
    requires 1 <= now.month <= 12
  {
    var ym := ShiftMonth(now.year, now.month, j - 5);
    TrendData(ym.0, ym.1, MonthShort(ym.1), SumExpenses(ExpensesInMonth(es, ym)), SumIncome(IncomeInMonth(xs, ym)))
  }

  /** getTrendData: `for (let i = 5; i >= 0; i--)` pushes the bucket of the month
      `i` months back. */
  method GetTrendData(expenses: seq<Expense>, income: seq<Income>, now: DateTime) returns (r: seq<TrendData>)
    requires 1 <= now.month <= 12
    ensures |r| == 6
    ensures forall j :: 0 <= j < 6 ==> r[j] == Bucket(expenses, income, now, j)
  {
    r := [];
    var i := 5;
    while i >= 0
      invariant -1 <= i <= 5
      invariant |r| == 5 - i
      invariant forall j :: 0 <= j < |r| ==> r[j] == Bucket(expenses, income, now, j)
    {
      var date := MonthStart(now.year, now.month, -i);
      var monthKey := MonthKey(date);
      var monthExpenses := SumExpenses(ExpensesInMonth(expenses, monthKey));
      var monthIncome := SumIncome(IncomeInMonth(income, monthKey));
      r := r + [TrendData(date.year, date.month, MonthShort(date.month), monthExpenses, monthIncome)];
      i := i - 1;
    }
  }

  /** The six buckets are consecutive months, oldest first, ending at the current
      month, and each holds the sums of the entries dated in its month. */
  lemma BucketFacts(es: seq<Expense>, xs: seq<Income>, now: DateTime, j: int)
    requires 1 <= now.month <= 12 && 0 <= j < 6
    ensures var b := Bucket(es, xs, now, j);
      1 <= b.month <= 12
      && b.year * 12 + b.month == now.year * 12 + now.month - (5 - j)
      && (j == 5 ==> b.year == now.year && b.month == now.month)
      && b.expenses == SumExpenses(ExpensesInMonth(es, (b.year, b.month)))
      && b.income == SumIncome(IncomeInMonth(xs, (b.year, b.month)))
      && (forall e :: e in ExpensesInMonth(es, (b.year, b.month)) <==> e in es && MonthKey(e.date) == (b.year, b.month))
  {
    var b := Bucket(es, xs, now, j);
    if j == 5 {
      ShiftMonthZero(now.year, now.month);
    }
    forall e ensures e in ExpensesInMonth(es, (b.year, b.month)) <==> e in es && MonthKey(e.date) == (b.year, b.month) {
      KeepMembers(es, (e: Expense) => MonthKey(e.date) == (b.year, b.month), e);
    }
  }

  /** Consecutive buckets are consecutive months. */
  lemma BucketsConsecutive(es: seq<Expense>, xs: seq<Income>, now: DateTime, j: int)
    requires 1 <= now.month <= 12 && 0 <= j < 5
    ensures var a := Bucket(es, xs, now, j); var b := Bucket(es, xs, now, j + 1);
      b.year * 12 + b.month == a.year * 12 + a.month + 1
  {
  }

  // ------------------------------------------------- bars

  function Max(a: real, b: real): real
  {
    if a >= b then a else b
  }

  /** `Math.max(...data.map(d => Math.max(d.expenses, d.income)))`; `None` stands
      for the `-Infinity` of an empty list. */
  function MaxValue(data: seq<TrendData>): (m: Option<real>)
    ensures m.None? <==> data == []
    ensures m.Some? ==> forall j :: 0 <= j < |data| ==> data[j].expenses <= m.value && data[j].income <= m.value
    ensures m.Some? ==> exists j :: 0 <= j < |data| && (data[j].expenses == m.value || data[j].income == m.value)
  {
    if data == [] then None
    else
      var d := data[|data| - 1];
      var here := Max(d.expenses, d.income);
      var rest := MaxValue(data[..|data| - 1]);
      if rest.None? then Some(here) else Some(Max(rest.value, here))
  }

  /** `maxValue > 0 ? (value / maxValue) * 120 : 0`. */
  function BarHeight(value: real, maxValue: Option<real>): real
  {
    if maxValue.Some? && maxValue.value > 0.0 then value / maxValue.value * 120.0 else 0.0
  }

  lemma HeightBounds(v: real, m: real)
    requires 0.0 <= v <= m && m > 0.0
    ensures 0.0 <= BarHeight(v, Some(m)) <= 120.0
  {
    assert v / m <= 1.0;
  }

  lemma HeightOfMax(m: real)
    requires m > 0.0
    ensures BarHeight(m, Some(m)) == 120.0
  {
    assert m / m == 1.0;
  }

  /** With non-negative sums, every bar is between 0 and 120 high; all bars are 0
      when nothing is above 0, and otherwise the tallest bar is exactly 120. */
  lemma BarHeightsBounded(data: seq<TrendData>)
    requires forall j :: 0 <= j < |data| ==> data[j].expenses >= 0.0 && data[j].income >= 0.0
    ensures forall j :: 0 <= j < |data| ==>
      0.0 <= BarHeight(data[j].expenses, MaxValue(data)) <= 120.0
      && 0.0 <= BarHeight(data[j].income, MaxValue(data)) <= 120.0
    ensures (MaxValue(data).None? || MaxValue(data).value <= 0.0) ==>
      forall j :: 0 <= j < |data| ==> BarHeight(data[j].expenses, MaxValue(data)) == 0.0 && BarHeight(data[j].income, MaxValue(data)) == 0.0
    ensures MaxValue(data).Some? && MaxValue(data).value > 0.0 ==>
      exists j :: 0 <= j < |data| && (BarHeight(data[j].expenses, MaxValue(data)) == 120.0 || BarHeight(data[j].income, MaxValue(data)) == 120.0)
  {
    var m := MaxValue(data);
    if m.Some? && m.value > 0.0 {
      forall j | 0 <= j < |data|
        ensures 0.0 <= BarHeight(data[j].expenses, m) <= 120.0 && 0.0 <= BarHeight(data[j].income, m) <= 120.0
      {
        HeightBounds(data[j].expenses, m.value);
        HeightBounds(data[j].income, m.value);
      }
      var j :| 0 <= j < |data| && (data[j].expenses == m.value || data[j].income == m.value);
      HeightOfMax(m.value);
    }
  }

  /** Sums of non-negative amounts are non-negative, so the trend buckets of such
      entries meet the bar bounds above. */
  lemma {:induction false} SumsNonNegative(es: seq<Expense>, xs: seq<Income>)
    requires forall e :: e in es ==> e.amount >= 0.0
    requires forall x :: x in xs ==> x.amount >= 0.0
    ensures SumExpenses(es) >= 0.0 && SumIncome(xs) >= 0.0
    decreases |es| + |xs|
  {
    if es != [] {
      assert es[|es| - 1] in es;
      SumsNonNegative(es[..|es| - 1], xs);
    } else if xs != [] {
      assert xs[|xs| - 1] in xs;
      SumsNonNegative(es, xs[..|xs| - 1]);
    }
  }
}
