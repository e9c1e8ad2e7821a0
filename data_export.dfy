/** The export screen (components/DataExport.tsx): the period choice becomes a
    date range, and the export record is written out as CSV or as a plain-text
    report. */
module DataExport {
  import opened Base
  import opened Text
  import opened Dates
  import opened Types

  // ------------------------------------------------- periods

  /** getDateRange: the start of the period, and its end, which is `now` except
      for the last month. An unknown period is the current month. */
  function GetDateRange(period: string, now: DateTime): (r: (DateTime, DateTime))
    requires 1 <= now.month <= 12
  {
    if period == "last-month" then (MonthStart(now.year, now.month, -1), DayZero(now.year, now.month))
    else if period == "last-3-months" then (MonthStart(now.year, now.month, -3), now)
    else if period == "this-year" then (DateTime(now.year, 1, 1, 0), now)
    else if period == "all-time" then (DateTime(2020, 1, 1, 0), now)
    else (MonthStart(now.year, now.month, 0), now)
  }

  const KnownPeriods: seq<string> := ["this-month", "last-month", "last-3-months", "this-year", "all-time"]

  /** The last month runs from the 1st of the previous month to the start of that
      month's last day; every other period ends at `now`; an unknown period is
      the current month; this month and this year start on a 1st at midnight of
      the current year. */
  lemma DateRangeFacts(period: string, now: DateTime)
    requires 1 <= now.month <= 12
    ensures var (from, to) := GetDateRange(period, now);
      (period == "last-month" ==>
        ShiftMonth(now.year, now.month, -1) == (from.year, from.month) == (to.year, to.month)
        && from.day == 1 && from.msOfDay == 0
        && to.day == DaysInMonth(to.year, to.month) && to.msOfDay == 0
        && (from.year, from.month) == (if now.month == 1 then (now.year - 1, 12) else (now.year, now.month - 1)))
      && (period != "last-month" ==> to == now)
      && (period !in KnownPeriods ==> GetDateRange(period, now) == GetDateRange("this-month", now))
      && (period == "this-month" ==> from == DateTime(now.year, now.month, 1, 0))
      && (period == "this-year" ==> from == DateTime(now.year, 1, 1, 0))
      && (period == "all-time" ==> from == DateTime(2020, 1, 1, 0))
  {
    ShiftMonthBack(now.year, now.month);
    ShiftMonthZero(now.year, now.month);
  }

  /** The day numbers grow with the day of the month. */
  lemma DaysFromCivilMonotone(y: int, m: int, d1: int, d2: int)
    requires 1 <= m <= 12 && d1 <= d2
    ensures DaysFromCivil(y, m, d1) <= DaysFromCivil(y, m, d2)
  {
  }

  /** For a calendar `now`, the current month's and the last month's ranges are
      not empty. */
  lemma DateRangeOrdered(period: string, now: DateTime)
    requires ValidDate(now)
    requires period == "this-month" || period == "last-month" || period !in KnownPeriods
    ensures NotAfter(GetDateRange(period, now).0, GetDateRange(period, now).1)
  {
    var (from, to) := GetDateRange(period, now);
    EpochMsOfMonth(from);
    EpochMsOfMonth(to);
    if period == "last-month" {
      DaysFromCivilMonotone(from.year, from.month, 1, to.day);
    } else {
      ShiftMonthZero(now.year, now.month);
      DaysFromCivilMonotone(now.year, now.month, 1, now.day);
    }
  }

  /** The last month's range ends at the midnight that starts the month's last
      day, so an entry later on that day, here at noon, falls outside it. */
  lemma LastDayLeftOut(now: DateTime)
    requires 1 <= now.month <= 12
    ensures var (from, to) := GetDateRange("last-month", now); var noon := to.(msOfDay := MsPerDay / 2);
      ValidDate(noon) && (noon.year, noon.month) == (from.year, from.month) && !NotAfter(noon, to)
  {
    var (from, to) := GetDateRange("last-month", now);
    var noon := to.(msOfDay := MsPerDay / 2);
    EpochMsOfMonth(to);
    EpochMsOfMonth(noon);
  }

  /** The last month's range as evidently intended: from midnight on the 1st of
      the previous month to the last millisecond of that month's last day. */
  function LastMonthRange(now: DateTime): (DateTime, DateTime)
    requires 1 <= now.month <= 12
  {
    (MonthStart(now.year, now.month, -1), DayZero(now.year, now.month).(msOfDay := MsPerDay - 1))
  }

  /** Every moment of the previous month lies within the intended range. */
  lemma LastMonthRangeCovers(now: DateTime, d: DateTime)
    requires 1 <= now.month <= 12 && ValidDate(d)
    requires (d.year, d.month) == ShiftMonth(now.year, now.month, -1)
    ensures NotAfter(LastMonthRange(now).0, d) && NotAfter(d, LastMonthRange(now).1)
  {
    var (from, to) := LastMonthRange(now);
    EpochMsOfMonth(from);
    EpochMsOfMonth(to);
    EpochMsOfMonth(d);
    DaysFromCivilMonotone(d.year, d.month, 1, d.day);
    DaysFromCivilMonotone(d.year, d.month, d.day, to.day);
    var a := DaysFromCivil(d.year, d.month, d.day);
    var b := DaysFromCivil(d.year, d.month, to.day);
    assert a * MsPerDay <= b * MsPerDay;
  }

  // ------------------------------------------------- CSV

  /** The column names of the first row. */
  const CsvColumns: seq<string> := ["Type", "Description", "Amount", "Currency", "Category", "Date", "Notes"]

  /** 'Type,Description,Amount,Currency,Category,Date,Notes' and a line break. */
  const CsvHeader: string := Join(CsvColumns) + "\n"

  /** A text field between double quotes (no escaping is done). */
  function Quote(s: string): string
  {
    "\"" + s + "\""
  }

  /** The fields of a row separated by commas. */
  function Join(fs: seq<string>): string
    decreases |fs|
  {
    if fs == [] then "" else if |fs| == 1 then fs[0] else fs[0] + "," + Join(fs[1..])
  }

  /** The fields of an expense row. `num` is JavaScript's default number-to-text
      conversion of the amount in the template literal. */
  function ExpenseFields(e: Expense, num: real -> string): (r: seq<string>)
    requires ValidDate(e.date)
    ensures |r| == 7 && r[0] == "Expense"
  {
    ["Expense", Quote(e.description), num(e.amount), e.currency, Quote(e.category), IsoDate(e.date), Quote(OrElse(e.notes, ""))]
  }

  /** The fields of an income row: a missing category is written as 'Income'. */
  function IncomeFields(x: Income, num: real -> string): (r: seq<string>)
    requires ValidDate(x.date)
    ensures |r| == 7 && r[0] == "Income"
  {
    ["Income", Quote(x.source), num(x.amount), x.currency, Quote(OrElse(x.category, "Income")), IsoDate(x.date), Quote(OrElse(x.notes, ""))]
  }

  function ExpenseLine(e: Expense, num: real -> string): string
    requires ValidDate(e.date)
  {
    Join(ExpenseFields(e, num)) + "\n"
  }

  function IncomeLine(x: Income, num: real -> string): string
    requires ValidDate(x.date)
  {
    Join(IncomeFields(x, num)) + "\n"
  }

  predicate ExpenseDatesValid(es: seq<Expense>)
  {
    forall k :: 0 <= k < |es| ==> ValidDate(es[k].date)
  }

  predicate IncomeDatesValid(xs: seq<Income>)
  {
    forall k :: 0 <= k < |xs| ==> ValidDate(xs[k].date)
  }

  /** Every date of the export is a calendar date, as a JavaScript `Date` always is. */
  predicate DatesValid(data: ExportData)
  {
    ExpenseDatesValid(data.expenses) && IncomeDatesValid(data.income)
  }

  function ExpenseLines(es: seq<Expense>, num: real -> string): (r: seq<string>)
    requires ExpenseDatesValid(es)
    ensures |r| == |es|
  {
    if es == [] then [] else ExpenseLines(es[..|es| - 1], num) + [ExpenseLine(es[|es| - 1], num)]
  }

  function IncomeLines(xs: seq<Income>, num: real -> string): (r: seq<string>)
    requires IncomeDatesValid(xs)
    ensures |r| == |xs|
  {
    if xs == [] then [] else IncomeLines(xs[..|xs| - 1], num) + [IncomeLine(xs[|xs| - 1], num)]
  }

  /** The rows of the CSV file: the header, the expenses, then the income. */
  function CsvLines(data: ExportData, num: real -> string): seq<string>
    requires DatesValid(data)
  {
    [CsvHeader] + ExpenseLines(data.expenses, num) + IncomeLines(data.income, num)
  }

  /** The text of a list of lines. */
  function Concat(ls: seq<string>): string
  {
    if ls == [] then "" else Concat(ls[..|ls| - 1]) + ls[|ls| - 1]
  }

  /** One more line at the end appends its text. */
  lemma ConcatSnoc(ls: seq<string>, l: string)
    ensures Concat(ls + [l]) == Concat(ls) + l
  {
    assert (ls + [l])[..|ls|] == ls;
  }

  lemma ExpenseLinesSnoc(es: seq<Expense>, num: real -> string, i: nat)
    requires ExpenseDatesValid(es)
    requires i < |es|
    ensures ExpenseLines(es[..i + 1], num) == ExpenseLines(es[..i], num) + [ExpenseLine(es[i], num)]
  {
    assert es[..i + 1][..i] == es[..i];
  }

  lemma IncomeLinesSnoc(xs: seq<Income>, num: real -> string, i: nat)
    requires IncomeDatesValid(xs)
    requires i < |xs|
    ensures IncomeLines(xs[..i + 1], num) == IncomeLines(xs[..i], num) + [IncomeLine(xs[i], num)]
  {
    assert xs[..i + 1][..i] == xs[..i];
  }

  /** Writing one more expense row appends its text. */
  lemma ExpenseRowStep(done: seq<string>, es: seq<Expense>, num: real -> string, i: nat)
    requires ExpenseDatesValid(es) && i < |es|
    ensures Concat(done + ExpenseLines(es[..i + 1], num)) == Concat(done + ExpenseLines(es[..i], num)) + ExpenseLine(es[i], num)
  {
    var line := ExpenseLine(es[i], num);
    ExpenseLinesSnoc(es, num, i);
    assert done + ExpenseLines(es[..i + 1], num) == (done + ExpenseLines(es[..i], num)) + [line];
    ConcatSnoc(done + ExpenseLines(es[..i], num), line);
  }

  /** Writing one more income row appends its text. */
  lemma IncomeRowStep(done: seq<string>, xs: seq<Income>, num: real -> string, j: nat)
    requires IncomeDatesValid(xs) && j < |xs|
    ensures Concat(done + IncomeLines(xs[..j + 1], num)) == Concat(done + IncomeLines(xs[..j], num)) + IncomeLine(xs[j], num)
  {
    var line := IncomeLine(xs[j], num);
    IncomeLinesSnoc(xs, num, j);
    assert done + IncomeLines(xs[..j + 1], num) == (done + IncomeLines(xs[..j], num)) + [line];
    ConcatSnoc(done + IncomeLines(xs[..j], num), line);
  }

  /** `data.expenses.forEach(expense => csv += ...)`. */
  method AppendExpenseRows(csv0: string, ghost done: seq<string>, es: seq<Expense>, num: real -> string)
    returns (csv: string)
    requires ExpenseDatesValid(es) && csv0 == Concat(done)
    ensures csv == Concat(done + ExpenseLines(es, num))
  {
    csv := csv0;
    assert done + ExpenseLines(es[..0], num) == done;
    var i := 0;
    while i < |es|
      invariant 0 <= i <= |es|
      invariant csv == Concat(done + ExpenseLines(es[..i], num))
    {
      ExpenseRowStep(done, es, num, i);
      csv := csv + ExpenseLine(es[i], num);
      i := i + 1;
    }
    assert es[..i] == es;
  }

  /** `data.income.forEach(income => csv += ...)`. */
  method AppendIncomeRows(csv0: string, ghost done: seq<string>, xs: seq<Income>, num: real -> string)
    returns (csv: string)
    requires IncomeDatesValid(xs) && csv0 == Concat(done)
    ensures csv == Concat(done + IncomeLines(xs, num))
  {
    csv := csv0;
    assert done + IncomeLines(xs[..0], num) == done;
    var j := 0;
    while j < |xs|
      invariant 0 <= j <= |xs|
      invariant csv == Concat(done + IncomeLines(xs[..j], num))
    {
      IncomeRowStep(done, xs, num, j);
      csv := csv + IncomeLine(xs[j], num);
      j := j + 1;
    }
    assert xs[..j] == xs;
  }

  /** generateCSV: the header, then one row per expense and one per income. */
  method GenerateCSV(data: ExportData, num: real -> string) returns (csv: string)
    requires DatesValid(data)
    ensures csv == Concat(CsvLines(data, num))
  {
    csv := CsvHeader;
    ConcatSnoc([], CsvHeader);
    assert [] + [CsvHeader] == [CsvHeader];
    ghost var head := [CsvHeader];
    csv := AppendExpenseRows(csv, head, data.expenses, num);
    ghost var rows := head + ExpenseLines(data.expenses, num);
    csv := AppendIncomeRows(csv, rows, data.income, num);
  }

  /** Row `k` of the expenses is the `k`-th expense's row. */
  lemma {:induction false} ExpenseLinesIndex(es: seq<Expense>, num: real -> string, k: nat)
    requires ExpenseDatesValid(es)
    requires k < |es|
    ensures ExpenseLines(es, num)[k] == ExpenseLine(es[k], num)
    decreases |es|
  {
    if k < |es| - 1 {
      var init := es[..|es| - 1];
      assert init[k] == es[k];
      ExpenseLinesIndex(init, num, k);
    }
  }

  lemma {:induction false} IncomeLinesIndex(xs: seq<Income>, num: real -> string, k: nat)
    requires IncomeDatesValid(xs)
    requires k < |xs|
    ensures IncomeLines(xs, num)[k] == IncomeLine(xs[k], num)
    decreases |xs|
  {
    if k < |xs| - 1 {
      var init := xs[..|xs| - 1];
      assert init[k] == xs[k];
      IncomeLinesIndex(init, num, k);
    }
  }

  /** A joined row starts with its first field and a comma. */
  lemma JoinStart(fs: seq<string>)
    requires |fs| >= 2
    ensures IsPrefix(fs[0] + ",", Join(fs))
  {
    assert Join(fs) == (fs[0] + ",") + Join(fs[1..]);
  }

  predicate EndsInNewline(l: string)
  {
    |l| > 0 && l[|l| - 1] == '\n'
  }

  /** An expense row starts with 'Expense,' and ends with a line break. */
  lemma ExpenseLineShape(e: Expense, num: real -> string)
    requires ValidDate(e.date)
    ensures IsPrefix("Expense,", ExpenseLine(e, num)) && EndsInNewline(ExpenseLine(e, num))
  {
    var fs := ExpenseFields(e, num);
    JoinStart(fs);
    assert fs[0] + "," == "Expense,";
  }

  /** An income row starts with 'Income,' and ends with a line break. */
  lemma IncomeLineShape(x: Income, num: real -> string)
    requires ValidDate(x.date)
    ensures IsPrefix("Income,", IncomeLine(x, num)) && EndsInNewline(IncomeLine(x, num))
  {
    var fs := IncomeFields(x, num);
    JoinStart(fs);
    assert fs[0] + "," == "Income,";
  }

  /** Indexing a one-element head followed by two lists. */
  lemma IndexJoined<T>(h: T, a: seq<T>, b: seq<T>, k: nat)
    requires k < 1 + |a| + |b|
    ensures ([h] + a + b)[k] == if k == 0 then h else if k <= |a| then a[k - 1] else b[k - 1 - |a|]
  {
  }

  /** The file's rows: the header, then the expenses' rows, then the income's. */
  lemma CsvRowCount(data: ExportData, num: real -> string)
    requires DatesValid(data)
    ensures |CsvLines(data, num)| == 1 + |data.expenses| + |data.income|
    ensures CsvLines(data, num)[0] == CsvHeader
  {
  }

  lemma CsvExpenseRow(data: ExportData, num: real -> string, k: nat)
    requires DatesValid(data)
    requires k < |data.expenses|
    ensures CsvLines(data, num)[1 + k] == ExpenseLine(data.expenses[k], num)
  {
    var es := ExpenseLines(data.expenses, num);
    IndexJoined(CsvHeader, es, IncomeLines(data.income, num), 1 + k);
    ExpenseLinesIndex(data.expenses, num, k);
  }

  lemma CsvIncomeRow(data: ExportData, num: real -> string, k: nat)
    requires DatesValid(data)
    requires k < |data.income|
    ensures CsvLines(data, num)[1 + |data.expenses| + k] == IncomeLine(data.income[k], num)
  {
    var es := ExpenseLines(data.expenses, num);
    IndexJoined(CsvHeader, es, IncomeLines(data.income, num), 1 + |data.expenses| + k);
    IncomeLinesIndex(data.income, num, k);
  }

  lemma CsvExpenseRows(data: ExportData, num: real -> string)
    requires DatesValid(data)
    ensures forall k :: 0 <= k < |data.expenses| ==>
      CsvLines(data, num)[1 + k] == ExpenseLine(data.expenses[k], num)
      && IsPrefix("Expense,", ExpenseLine(data.expenses[k], num))
  {
    forall k | 0 <= k < |data.expenses|
      ensures CsvLines(data, num)[1 + k] == ExpenseLine(data.expenses[k], num)
      ensures IsPrefix("Expense,", ExpenseLine(data.expenses[k], num))
    {
      CsvExpenseRow(data, num, k);
      ExpenseLineShape(data.expenses[k], num);
    }
  }

  lemma CsvIncomeRows(data: ExportData, num: real -> string)
    requires DatesValid(data)
    ensures forall k :: 0 <= k < |data.income| ==>
      CsvLines(data, num)[1 + |data.expenses| + k] == IncomeLine(data.income[k], num)
      && IsPrefix("Income,", IncomeLine(data.income[k], num))
  {
    forall k | 0 <= k < |data.income|
      ensures CsvLines(data, num)[1 + |data.expenses| + k] == IncomeLine(data.income[k], num)
      ensures IsPrefix("Income,", IncomeLine(data.income[k], num))
    {
      CsvIncomeRow(data, num, k);
      IncomeLineShape(data.income[k], num);
    }
  }

  lemma CsvRowEnds(data: ExportData, num: real -> string, k: nat)
    requires DatesValid(data) && k < |CsvLines(data, num)|
    ensures EndsInNewline(CsvLines(data, num)[k])
  {
    var ne := |data.expenses|;
    CsvRowCount(data, num);
    if k == 0 {
      HeaderIsLine();
      LineEnds(CsvHeader);
    } else if k <= ne {
      CsvExpenseRow(data, num, k - 1);
      ExpenseLineShape(data.expenses[k - 1], num);
    } else {
      CsvIncomeRow(data, num, k - 1 - ne);
      IncomeLineShape(data.income[k - 1 - ne], num);
    }
  }

  lemma CsvRowsEnd(data: ExportData, num: real -> string)
    requires DatesValid(data)
    ensures forall k :: 0 <= k < |CsvLines(data, num)| ==> EndsInNewline(CsvLines(data, num)[k])
  {
    forall k | 0 <= k < |CsvLines(data, num)| ensures EndsInNewline(CsvLines(data, num)[k]) {
      CsvRowEnds(data, num, k);
    }
  }

  /** The file has the fixed header, then one row per expense, then one per
      income, `1 + |expenses| + |income|` rows in all; expense rows start with
      'Expense,' and income rows with 'Income,', and every row ends in a newline. */
  lemma CsvShape(data: ExportData, num: real -> string)
    requires DatesValid(data)
    ensures |CsvLines(data, num)| == 1 + |data.expenses| + |data.income|
    ensures CsvLines(data, num)[0] == CsvHeader
    ensures forall k :: 0 <= k < |data.expenses| ==>
      CsvLines(data, num)[1 + k] == ExpenseLine(data.expenses[k], num)
      && IsPrefix("Expense,", ExpenseLine(data.expenses[k], num))
    ensures forall k :: 0 <= k < |data.income| ==>
      CsvLines(data, num)[1 + |data.expenses| + k] == IncomeLine(data.income[k], num)
      && IsPrefix("Income,", IncomeLine(data.income[k], num))
    ensures forall k :: 0 <= k < |CsvLines(data, num)| ==> EndsInNewline(CsvLines(data, num)[k])
  {
    CsvRowCount(data, num);
    CsvExpenseRows(data, num);
    CsvIncomeRows(data, num);
    CsvRowsEnd(data, num);
  }

  // ------------------------------------------------- newline count

  function Newlines(s: string): nat
  {
    if s == [] then 0 else Newlines(s[..|s| - 1]) + (if s[|s| - 1] == '\n' then 1 else 0)
  }

  lemma {:induction false} NewlinesAppend(a: string, b: string)
    ensures Newlines(a + b) == Newlines(a) + Newlines(b)
    decreases |b|
  {
    if b == [] {
      assert a + b == a;
    } else {
      assert (a + b)[..|a + b| - 1] == a + b[..|b| - 1];
      NewlinesAppend(a, b[..|b| - 1]);
    }
  }

  lemma {:induction false} NoNewlines(s: string)
    requires '\n' !in s
    ensures Newlines(s) == 0
    decreases |s|
  {
    if s != [] {
      assert s[..|s| - 1] + [s[|s| - 1]] == s;
      NoNewlines(s[..|s| - 1]);
    }
  }

  /** A row: text without line breaks, then one. */
  ghost predicate IsLine(l: string)
  {
    exists body :: '\n' !in body && l == body + "\n"
  }

  lemma LineEnds(l: string)
    requires IsLine(l)
    ensures EndsInNewline(l)
  {
  }

  lemma {:induction false} ConcatLines(ls: seq<string>)
    requires forall k :: 0 <= k < |ls| ==> IsLine(ls[k])
    ensures Newlines(Concat(ls)) == |ls|
    decreases |ls|
  {
    if ls != [] {
      var l := ls[|ls| - 1];
      ConcatLines(ls[..|ls| - 1]);
      NewlinesAppend(Concat(ls[..|ls| - 1]), l);
      var body :| '\n' !in body && l == body + "\n";
      NewlinesAppend(body, "\n");
      NoNewlines(body);
    }
  }

  lemma {:induction false} JoinSingleLine(fs: seq<string>)
    requires forall k :: 0 <= k < |fs| ==> '\n' !in fs[k]
    ensures '\n' !in Join(fs)
    decreases |fs|
  {
    if |fs| > 1 {
      JoinSingleLine(fs[1..]);
    }
  }

  lemma {:induction false} PadLeftChars(s: string, width: nat, c: char)
    ensures forall x :: x in PadLeft(s, width, c) ==> x in s || x == c
    decreases width - |s|
  {
    if |s| < width {
      PadLeftChars([c] + s, width, c);
    }
  }

  /** An ISO date is made of digits, signs and dashes. */
  lemma IsoDateSingleLine(d: DateTime)
    requires ValidDate(d)
    ensures '\n' !in IsoDate(d)
  {
    if 0 <= d.year <= 9999 {
      PadLeftChars(NatToString(d.year), 4, '0');
    } else if d.year < 0 {
      PadLeftChars(NatToString(-d.year), 6, '0');
    } else {
      PadLeftChars(NatToString(d.year), 6, '0');
    }
    var m := Pad2(d.month);
    var dd := Pad2(d.day);
    assert '\n' !in m && '\n' !in dd;
  }

  /** No text written into a row holds a line break. */
  predicate SingleLineFields(data: ExportData, num: real -> string)
  {
    (forall k :: 0 <= k < |data.expenses| ==> var e := data.expenses[k];
      '\n' !in e.description && '\n' !in num(e.amount) && '\n' !in e.currency && '\n' !in e.category
      && '\n' !in OrElse(e.notes, ""))
    && (forall k :: 0 <= k < |data.income| ==> var x := data.income[k];
      '\n' !in x.source && '\n' !in num(x.amount) && '\n' !in x.currency && '\n' !in OrElse(x.category, "Income")
      && '\n' !in OrElse(x.notes, ""))
  }

  lemma ExpenseLineIsLine(e: Expense, num: real -> string)
    requires ValidDate(e.date)
    requires '\n' !in e.description && '\n' !in num(e.amount) && '\n' !in e.currency && '\n' !in e.category
      && '\n' !in OrElse(e.notes, "")
    ensures IsLine(ExpenseLine(e, num))
  {
    IsoDateSingleLine(e.date);
    var fs := ExpenseFields(e, num);
    assert forall k :: 0 <= k < |fs| ==> '\n' !in fs[k];
    JoinSingleLine(fs);
  }

  lemma IncomeLineIsLine(x: Income, num: real -> string)
    requires ValidDate(x.date)
    requires '\n' !in x.source && '\n' !in num(x.amount) && '\n' !in x.currency && '\n' !in OrElse(x.category, "Income")
      && '\n' !in OrElse(x.notes, "")
    ensures IsLine(IncomeLine(x, num))
  {
    IsoDateSingleLine(x.date);
    var fs := IncomeFields(x, num);
    assert forall k :: 0 <= k < |fs| ==> '\n' !in fs[k];
    JoinSingleLine(fs);
  }

  lemma HeaderIsLine()
    ensures IsLine(CsvHeader)
  {
    var cs := CsvColumns;
    assert forall k :: 0 <= k < |cs| ==> '\n' !in cs[k];
    JoinSingleLine(cs);
  }

  lemma CsvRowIsLine(data: ExportData, num: real -> string, k: nat)
    requires DatesValid(data) && SingleLineFields(data, num) && k < |CsvLines(data, num)|
    ensures IsLine(CsvLines(data, num)[k])
  {
    CsvRowCount(data, num);
    if k == 0 {
      CsvHeaderRowIsLine(data, num);
    } else if k <= |data.expenses| {
      CsvExpenseRowIsLine(data, num, k - 1);
    } else {
      CsvIncomeRowIsLine(data, num, k - 1 - |data.expenses|);
    }
  }

  lemma CsvHeaderRowIsLine(data: ExportData, num: real -> string)
    requires DatesValid(data)
    ensures |CsvLines(data, num)| > 0 && IsLine(CsvLines(data, num)[0])
  {
    CsvRowCount(data, num);
    HeaderIsLine();
  }

  lemma CsvExpenseRowIsLine(data: ExportData, num: real -> string, j: nat)
    requires DatesValid(data) && SingleLineFields(data, num) && j < |data.expenses|
    ensures |CsvLines(data, num)| > 1 + j && IsLine(CsvLines(data, num)[1 + j])
  {
    CsvRowCount(data, num);
    CsvExpenseRow(data, num, j);
    ExpenseRowIsLine(data, num, j);
  }

  lemma CsvIncomeRowIsLine(data: ExportData, num: real -> string, j: nat)
    requires DatesValid(data) && SingleLineFields(data, num) && j < |data.income|
    ensures |CsvLines(data, num)| > 1 + |data.expenses| + j && IsLine(CsvLines(data, num)[1 + |data.expenses| + j])
  {
    CsvRowCount(data, num);
    CsvIncomeRow(data, num, j);
    IncomeRowIsLine(data, num, j);
  }

  lemma ExpenseRowIsLine(data: ExportData, num: real -> string, j: nat)
    requires DatesValid(data) && SingleLineFields(data, num) && j < |data.expenses|
    ensures IsLine(ExpenseLine(data.expenses[j], num))
  {
    var e := data.expenses[j];
    assert ValidDate(e.date);
    assert '\n' !in e.description && '\n' !in num(e.amount) && '\n' !in e.currency && '\n' !in e.category
      && '\n' !in OrElse(e.notes, "");
    ExpenseLineIsLine(e, num);
  }

  lemma IncomeRowIsLine(data: ExportData, num: real -> string, j: nat)
    requires DatesValid(data) && SingleLineFields(data, num) && j < |data.income|
    ensures IsLine(IncomeLine(data.income[j], num))
  {
    var x := data.income[j];
    assert ValidDate(x.date);
    assert '\n' !in x.source && '\n' !in num(x.amount) && '\n' !in x.currency && '\n' !in OrElse(x.category, "Income")
      && '\n' !in OrElse(x.notes, "");
    IncomeLineIsLine(x, num);
  }

  /** When no field holds a line break, the file has exactly
      `1 + |expenses| + |income|` line breaks, one closing each row. */
  lemma CsvLineCount(data: ExportData, num: real -> string)
    requires DatesValid(data) && SingleLineFields(data, num)
    ensures Newlines(Concat(CsvLines(data, num))) == 1 + |data.expenses| + |data.income|
  {
    var ls := CsvLines(data, num);
    CsvRowCount(data, num);
    forall k | 0 <= k < |ls| ensures IsLine(ls[k]) {
      CsvRowIsLine(data, num, k);
    }
    ConcatLines(ls);
  }

  // ------------------------------------------------- report text

  /** The seven pieces generatePDF writes before the category lines. */
  function HeadLines(data: ExportData): (r: seq<string>)
    ensures |r| == 7 && r[0] == "EXPENSE REPORT\n" && r[6] == "TOP CATEGORIES\n"
  {
    ["EXPENSE REPORT\n",
     "Period: " + LocaleDate(data.from) + " - " + LocaleDate(data.to) + "\n\n",
     "SUMMARY\n",
     "Total Expenses: $" + Fixed2(data.summary.totalExpenses) + "\n",
     "Total Income: $" + Fixed2(data.summary.totalIncome) + "\n",
     "Net Savings: $" + Fixed2(data.summary.netSavings) + "\n\n",
     "TOP CATEGORIES\n"]
  }

  /** A top category's line: its name, a dollar sign and its amount to two
      decimals. */
  function CategoryLine(c: CategoryAmount): string
  {
    c.category + ": $" + Fixed2(c.amount) + "\n"
  }

  function CategoryLines(cs: seq<CategoryAmount>): (r: seq<string>)
    ensures |r| == |cs|
  {
    if cs == [] then [] else CategoryLines(cs[..|cs| - 1]) + [CategoryLine(cs[|cs| - 1])]
  }

  /** The pieces of the report, in order. */
  function PdfLines(data: ExportData): seq<string>
  {
    HeadLines(data) + CategoryLines(data.summary.topCategories)
  }

  /** `content +=` each of the given pieces in turn. */
  method AppendAll(content0: string, ghost done: seq<string>, pieces: seq<string>) returns (content: string)
    requires content0 == Concat(done)
    ensures content == Concat(done + pieces)
  {
    content := content0;
    assert done + pieces[..0] == done;
    var h := 0;
    while h < |pieces|
      invariant 0 <= h <= |pieces|
      invariant content == Concat(done + pieces[..h])
    {
      ConcatSnoc(done + pieces[..h], pieces[h]);
      assert done + pieces[..h + 1] == (done + pieces[..h]) + [pieces[h]];
      content := content + pieces[h];
      h := h + 1;
    }
    assert pieces[..h] == pieces;
  }

  /** `topCategories.forEach(cat => content += ...)`. */
  method AppendCategories(content0: string, ghost done: seq<string>, cs: seq<CategoryAmount>) returns (content: string)
    requires content0 == Concat(done)
    ensures content == Concat(done + CategoryLines(cs))
  {
    content := content0;
    assert done + CategoryLines(cs[..0]) == done;
    var i := 0;
    while i < |cs|
      invariant 0 <= i <= |cs|
      invariant content == Concat(done + CategoryLines(cs[..i]))
    {
      var line := CategoryLine(cs[i]);
      assert cs[..i + 1][..i] == cs[..i];
      assert done + CategoryLines(cs[..i + 1]) == (done + CategoryLines(cs[..i])) + [line];
      ConcatSnoc(done + CategoryLines(cs[..i]), line);
      content := content + line;
      i := i + 1;
    }
    assert cs[..i] == cs;
  }

  /** generatePDF: the seven appends of the head, then one line per top category. */
  method GeneratePDF(data: ExportData) returns (content: string)
    ensures content == Concat(PdfLines(data))
  {
    ghost var head := HeadLines(data);
    content := AppendAll("", [], HeadLines(data));
    assert [] + head == head;
    content := AppendCategories(content, head, data.summary.topCategories);
  }

  lemma {:induction false} CategoryLinesIndex(cs: seq<CategoryAmount>, k: nat)
    requires k < |cs|
    ensures CategoryLines(cs)[k] == CategoryLine(cs[k])
    decreases |cs|
  {
    if k < |cs| - 1 {
      var init := cs[..|cs| - 1];
      assert init[k] == cs[k];
      CategoryLinesIndex(init, k);
    }
  }

  /** Piece `7 + k` of the report is the line of the `k`-th top category. */
  lemma PdfCategoryLine(data: ExportData, k: nat)
    requires k < |data.summary.topCategories|
    ensures PdfLines(data)[7 + k] == CategoryLine(data.summary.topCategories[k])
  {
    var cs := data.summary.topCategories;
    CategoryLinesIndex(cs, k);
    IndexAfter(HeadLines(data), CategoryLines(cs), k);
  }

  lemma IndexAfter<T>(a: seq<T>, b: seq<T>, k: nat)
    requires k < |b|
    ensures (a + b)[|a| + k] == b[k]
  {
  }

  /** The report opens with its title, its seventh piece is the TOP CATEGORIES
      header, and after it comes one 'category: $amount' line per top category, in
      order. */
  lemma PdfShape(data: ExportData)
    ensures |PdfLines(data)| == 7 + |data.summary.topCategories|
    ensures PdfLines(data)[0] == "EXPENSE REPORT\n" && PdfLines(data)[6] == "TOP CATEGORIES\n"
    ensures forall k :: 0 <= k < |data.summary.topCategories| ==>
      PdfLines(data)[7 + k] == CategoryLine(data.summary.topCategories[k])
  {
    forall k | 0 <= k < |data.summary.topCategories|
      ensures PdfLines(data)[7 + k] == CategoryLine(data.summary.topCategories[k])
    {
      PdfCategoryLine(data, k);
    }
  }

  // ------------------------------------------------- format and file name

  datatype Format = Csv | Pdf | Json

  /** The format switch: an unknown value falls back to CSV. */
  function FormatOf(f: string): Format
  {
    if f == "pdf" then Pdf else if f == "json" then Json else Csv
  }

  function Extension(f: Format): string
  {
    match f
    case Csv => "csv"
    case Pdf => "pdf"
    case Json => "json"
  }

  /** handleExport's file: the content for the chosen format and the name
      `expenses_<period>.<ext>`. `stringify` is `JSON.stringify(data, null, 2)`. */
  function ExportFile(format: string, period: string, data: ExportData, num: real -> string, stringify: ExportData -> string)
    : (r: (string, string))
    requires DatesValid(data)
  {
    var f := FormatOf(format);
    var content :=
      match f
      case Csv => Concat(CsvLines(data, num))
      case Pdf => Concat(PdfLines(data))
      case Json => stringify(data);
    (content, "expenses_" + period + "." + Extension(f))
  }

  /** A known format names its own extension; any other value exports exactly
      what 'csv' does. */
  lemma ExportFileFacts(format: string, period: string, data: ExportData, num: real -> string, stringify: ExportData -> string)
    requires DatesValid(data)
    ensures format in ["csv", "pdf", "json"] ==> ExportFile(format, period, data, num, stringify).1 == "expenses_" + period + "." + format
    ensures format !in ["csv", "pdf", "json"] ==> ExportFile(format, period, data, num, stringify) == ExportFile("csv", period, data, num, stringify)
    ensures format == "csv" ==> ExportFile(format, period, data, num, stringify).0 == Concat(CsvLines(data, num))
  {
  }
}
