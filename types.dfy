/** The shared records of the application and its constant tables
    (types/index.ts). Dates are `DateTime` values, amounts exact reals; optional
    fields are `Option`s. */
module Types {
  import opened Base
  import opened Text
  import opened Dates

  datatype Recurrence = Daily | Weekly | Monthly | Yearly

  datatype BudgetPeriod = WeeklyBudget | MonthlyBudget | QuarterlyBudget | YearlyBudget

  /** The method a split was made with: `'equal' | 'amount' | 'percentage'`. */
  datatype SplitType = Equal | ByAmount | ByPercentage

  datatype Expense = Expense(
    id: string,
    userId: string,
    description: string,
    amount: real,
    currency: string,
    category: string,
    date: DateTime,
    notes: Option<string>,
    tags: Option<seq<string>>,
    receiptUrl: Option<string>,
    isRecurring: bool,
    recurringType: Option<Recurrence>,
    recurringEndDate: Option<DateTime>,
    groupId: Option<string>,
    createdAt: DateTime,
    updatedAt: DateTime)

  datatype Income = Income(
    id: string,
    userId: string,
    source: string,
    amount: real,
    currency: string,
    date: DateTime,
    notes: Option<string>,
    category: Option<string>,
    isRecurring: Option<bool>,
    recurringType: Option<Recurrence>,
    createdAt: DateTime,
    updatedAt: DateTime)

  /** `month` is documented as 'YYYY-MM' and `alertThreshold` as a percentage
      (80 meaning 80%); the type itself does not enforce either. */
  datatype Budget = Budget(
    id: string,
    userId: string,
    category: string,
    amount: real,
    currency: string,
    month: string,
    period: Option<BudgetPeriod>,
    rollover: Option<bool>,
    alertThreshold: Option<real>,
    createdAt: DateTime,
    updatedAt: DateTime)

  datatype Group = Group(
    id: string,
    name: string,
    creatorId: string,
    members: seq<string>,
    createdAt: DateTime,
    updatedAt: DateTime)

  /** One participant of a stored split. */
  datatype Share = Share(userId: string, amount: real, paid: bool, settled: bool)

  datatype Split = Split(
    id: string,
    expenseId: string,
    creatorId: string,
    participants: seq<Share>,
    splitType: SplitType,
    groupId: Option<string>,
    createdAt: DateTime,
    updatedAt: DateTime)

  /** `shares.reduce((sum, p) => sum + p.amount, 0)`. */
  function ShareTotal(ss: seq<Share>): real
    decreases |ss|
  {
    if ss == [] then 0.0 else ss[0].amount + ShareTotal(ss[1..])
  }

  /** `groups.find(g => g.id === x.groupId)?.name`: the name of the first group
      with that id; a record without a group id matches no group. */
  function GroupName(gs: seq<Group>, gid: Option<string>): (r: Option<string>)
    ensures r.Some? ==> gid.Some? && exists g :: g in gs && g.id == gid.value && g.name == r.value
  {
    if gs == [] || gid.None? then None
    else if gs[0].id == gid.value then Some(gs[0].name)
    else GroupName(gs[1..], gid)
  }

  /** The signed-in account as the screens read it from the authentication
      context (`user.uid`, `user.displayName`, `user.email`). */
  datatype AuthUser = AuthUser(uid: string, displayName: Option<string>, email: Option<string>)

  /** A friendship record as the split, friends and feed screens receive it:
      `friendId` is the other user's id. */
  datatype FriendLink = FriendLink(id: string, friendId: string, displayName: Option<string>, email: Option<string>)

  /** `friends.find(f => f.friendId === id)`: the first friend with that id. */
  function FindFriend(fs: seq<FriendLink>, id: string): (r: Option<FriendLink>)
    ensures r.Some? ==> r.value in fs && r.value.friendId == id
    ensures r.None? ==> forall f :: f in fs ==> f.friendId != id
    ensures r.Some? ==> exists i :: 0 <= i < |fs| && fs[i] == r.value && forall j :: 0 <= j < i ==> fs[j].friendId != id
    decreases |fs|
  {
    if fs == [] then None
    else if fs[0].friendId == id then Some(fs[0])
    else
      var r := FindFriend(fs[1..], id);
      if r.Some? then
        var i :| 0 <= i < |fs[1..]| && fs[1..][i] == r.value && forall j :: 0 <= j < i ==> fs[1..][j].friendId != id;
        assert fs[i + 1] == r.value && forall j :: 0 <= j < i + 1 ==> fs[j].friendId != id;
        r
      else r
  }

  datatype CategoryAmount = CategoryAmount(category: string, amount: real)

  datatype ExportSummary = ExportSummary(
    totalExpenses: real,
    totalIncome: real,
    netSavings: real,
    topCategories: seq<CategoryAmount>)

  datatype ExportData = ExportData(
    expenses: seq<Expense>,
    income: seq<Income>,
    budgets: seq<Budget>,
    from: DateTime,
    to: DateTime,
    summary: ExportSummary)

  datatype Currency = Currency(code: string, symbol: string, name: string)

  const ExpenseCategories: seq<string> := [
    "Food & Dining", "Transportation", "Shopping", "Entertainment", "Bills & Utilities",
    "Healthcare", "Travel", "Education", "Business", "Groceries",
    "Gas & Fuel", "Insurance", "Rent & Mortgage", "Subscriptions", "Gifts & Donations",
    "Personal Care", "Home & Garden", "Sports & Fitness", "Technology", "Other"]

  const IncomeCategories: seq<string> := [
    "Salary", "Freelance", "Business", "Investment", "Rental", "Bonus", "Gift",
    "Refund", "Side Hustle", "Pension", "Social Security", "Unemployment", "Other"]

  const Currencies: seq<Currency> := [
    Currency("USD", "$", "US Dollar"),
    Currency("EUR", "€", "Euro"),
    Currency("GBP", "£", "British Pound"),
    Currency("JPY", "¥", "Japanese Yen"),
    Currency("CAD", "C$", "Canadian Dollar"),
    Currency("AUD", "A$", "Australian Dollar"),
    Currency("CHF", "Fr", "Swiss Franc"),
    Currency("CNY", "¥", "Chinese Yuan"),
    Currency("INR", "₹", "Indian Rupee"),
    Currency("BRL", "R$", "Brazilian Real"),
    Currency("MXN", "$", "Mexican Peso"),
    Currency("KRW", "₩", "South Korean Won")]

  /** RECURRING_TYPES: the value and the label of each recurrence, in order. */
  const RecurringTypes: seq<(string, string)> := [
    ("daily", "Daily"), ("weekly", "Weekly"), ("monthly", "Monthly"), ("yearly", "Yearly")]

  function RecurrenceText(r: Recurrence): string
  {
    match r
    case Daily => "daily"
    case Weekly => "weekly"
    case Monthly => "monthly"
    case Yearly => "yearly"
  }

  function ParseRecurrence(s: string): (r: Option<Recurrence>)
    ensures r.Some? ==> RecurrenceText(r.value) == s
  {
    if s == "daily" then Some(Daily)
    else if s == "weekly" then Some(Weekly)
    else if s == "monthly" then Some(Monthly)
    else if s == "yearly" then Some(Yearly)
    else None
  }

  /** The union types' text and the recurrence datatype correspond one to one. */
  lemma RecurrenceRoundTrip(r: Recurrence)
    ensures ParseRecurrence(RecurrenceText(r)) == Some(r)
  {
  }

  /** RECURRING_TYPES lists exactly the four recurrences, in the order daily,
      weekly, monthly, yearly, each value the text of its recurrence. */
  lemma RecurringTypesAreTheRecurrences()
    ensures |RecurringTypes| == 4
    ensures forall i :: 0 <= i < 4 ==>
      ParseRecurrence(RecurringTypes[i].0) == Some([Daily, Weekly, Monthly, Yearly][i])
  {
  }

  function SplitTypeText(t: SplitType): string
  {
    match t
    case Equal => "equal"
    case ByAmount => "amount"
    case ByPercentage => "percentage"
  }

  function ParseSplitType(s: string): (r: Option<SplitType>)
    ensures r.Some? ==> SplitTypeText(r.value) == s
  {
    if s == "equal" then Some(Equal)
    else if s == "amount" then Some(ByAmount)
    else if s == "percentage" then Some(ByPercentage)
    else None
  }

  lemma SplitTypeRoundTrip(t: SplitType)
    ensures ParseSplitType(SplitTypeText(t)) == Some(t)
  {
  }

  /** EXPENSE_CATEGORIES has 20 distinct entries and starts with 'Food & Dining'. */
  lemma ExpenseCategoriesFacts()
    ensures |ExpenseCategories| == 20 && NoDuplicates(ExpenseCategories)
    ensures ExpenseCategories[0] == "Food & Dining"
  {
  }

  function Codes(cs: seq<Currency>): (r: seq<string>)
    ensures |r| == |cs| && forall i :: 0 <= i < |cs| ==> r[i] == cs[i].code
  {
    seq(|cs|, i requires 0 <= i < |cs| => cs[i].code)
  }

  /** CURRENCIES has 12 entries with distinct codes; symbols are not distinct:
      JPY and CNY share '¥', USD and MXN share '$'. */
  lemma CurrenciesFacts()
    ensures |Currencies| == 12 && NoDuplicates(Codes(Currencies))
    ensures Currencies[3].code == "JPY" && Currencies[7].code == "CNY"
      && Currencies[3].symbol == Currencies[7].symbol
    ensures Currencies[0].code == "USD" && Currencies[10].code == "MXN"
      && Currencies[0].symbol == Currencies[10].symbol
  {
  }

  /** The documented 'YYYY-MM' shape of `Budget.month`. */
  predicate IsYearMonth(s: string)
  {
    |s| == 7 && s[4] == '-'
    && (forall i :: 0 <= i < 7 && i != 4 ==> IsDigit(s[i]))
    && 1 <= DigitsValue(s[5..7]) <= 12
  }

  /** `date.toISOString().slice(0, 7)`, the month text budgets and charts key on:
      the first seven characters of the ISO date. For a year outside 0..9999 the
      ISO year is a sign and six digits, so the month is cut off. */
  function YearMonthText(d: DateTime): (r: string)
    requires ValidDate(d)
    ensures |r| == 7
  {
    IsoDate(d)[..7]
  }

  lemma {:induction false} NatToStringShort(n: nat, k: nat)
    requires n < Pow10(k) && k >= 1
    ensures |NatToString(n)| <= k
    decreases k
  {
    if n >= 10 {
      NatToStringShort(n / 10, k - 1);
    }
  }

  lemma {:induction false} PadLeftDigits(s: string, width: nat)
    requires forall i :: 0 <= i < |s| ==> IsDigit(s[i])
    ensures forall i :: 0 <= i < |PadLeft(s, width, '0')| ==> IsDigit(PadLeft(s, width, '0')[i])
    decreases width - |s|
  {
    if |s| < width {
      PadLeftDigits(['0'] + s, width);
    }
  }

  lemma Pad2Value(n: nat)
    requires n < 100
    ensures DigitsValue(Pad2(n)) == n
  {
    var p := Pad2(n);
    assert p[..1] == [DigitChar(n / 10)];
    assert DigitsValue(p[..1]) == n / 10;
  }

  /** For the years 0..9999 the month text is the 4-digit year, a dash and the
      2-digit month. */
  lemma YearMonthTextParts(d: DateTime)
    requires ValidDate(d) && 0 <= d.year <= 9999
    ensures YearMonthText(d) == IsoYear(d.year) + "-" + Pad2(d.month)
    ensures |IsoYear(d.year)| == 4 && forall i :: 0 <= i < 4 ==> IsDigit(IsoYear(d.year)[i])
  {
    NatToStringShort(d.year, 4);
    PadLeftDigits(NatToString(d.year), 4);
    var y := IsoYear(d.year);
    assert |y| == 4;
    assert IsoDate(d) == (y + "-" + Pad2(d.month)) + "-" + Pad2(d.day);
  }

  /** For the years 0..9999 the month text of a valid date has the 'YYYY-MM' shape. */
  lemma YearMonthTextShape(d: DateTime)
    requires ValidDate(d) && 0 <= d.year <= 9999
    ensures IsYearMonth(YearMonthText(d))
  {
    YearMonthTextParts(d);
    var s := YearMonthText(d);
    assert s[5..7] == Pad2(d.month);
    Pad2Value(d.month);
  }

  /** Leading zeros do not change a digit string's value. */
  lemma {:induction false} LeadingZeroValue(s: string)
    requires forall i :: 0 <= i < |s| ==> IsDigit(s[i])
    ensures DigitsValue(['0'] + s) == DigitsValue(s)
    decreases |s|
  {
    if s != [] {
      assert (['0'] + s)[..|s|] == ['0'] + s[..|s| - 1];
      LeadingZeroValue(s[..|s| - 1]);
    }
  }

  lemma {:induction false} PadLeftValue(s: string, width: nat)
    requires forall i :: 0 <= i < |s| ==> IsDigit(s[i])
    ensures forall i :: 0 <= i < |PadLeft(s, width, '0')| ==> IsDigit(PadLeft(s, width, '0')[i])
    ensures DigitsValue(PadLeft(s, width, '0')) == DigitsValue(s)
    decreases width - |s|
  {
    PadLeftDigits(s, width);
    if |s| < width {
      LeadingZeroValue(s);
      PadLeftValue(['0'] + s, width);
    }
  }

  /** For the years 0..9999 the month text tells months apart exactly as the
      model's month key (year, month) does. */
  lemma MonthTextIdentifiesMonth(a: DateTime, b: DateTime)
    requires ValidDate(a) && ValidDate(b) && 0 <= a.year <= 9999 && 0 <= b.year <= 9999
    ensures YearMonthText(a) == YearMonthText(b) <==> MonthKey(a) == MonthKey(b)
  {
    YearMonthTextParts(a);
    YearMonthTextParts(b);
    if YearMonthText(a) == YearMonthText(b) {
      var ta, tb := YearMonthText(a), YearMonthText(b);
      assert IsoYear(a.year) == ta[..4] == tb[..4] == IsoYear(b.year);
      PadLeftValue(NatToString(a.year), 4);
      PadLeftValue(NatToString(b.year), 4);
      DigitsValueOfNat(a.year);
      DigitsValueOfNat(b.year);
      assert Pad2(a.month) == ta[5..7] == tb[5..7] == Pad2(b.month);
      Pad2Value(a.month);
      Pad2Value(b.month);
    }
  }

  /** Beyond the year 9999 the month text is the same for every month of a year,
      so the source's monthly keys merge a whole year. */
  lemma MonthTextLosesMonth(a: DateTime, b: DateTime)
    requires ValidDate(a) && ValidDate(b) && a.year == b.year > 9999
    ensures YearMonthText(a) == YearMonthText(b)
  {
    var y := IsoYear(a.year);
    assert |y| >= 7;
    assert YearMonthText(a) == y[..7];
    assert YearMonthText(b) == y[..7];
  }
}
