/** The advanced-filter sheet (components/AdvancedFilters.tsx). Every control
    builds a new criteria record from the current one and hands it to the list
    screen; an empty text, an empty list or a `null` switch means "no
    constraint". */
module AdvancedFilters {
  import opened Base
  import opened Text

  /** The criteria record. `hasReceipt` and `isRecurring` are `boolean | null`;
      `null` is `None`. */
  datatype ExpenseFilters = ExpenseFilters(
    searchQuery: string,
    categories: seq<string>,
    currencies: seq<string>,
    dateFrom: string,
    dateTo: string,
    minAmount: string,
    maxAmount: string,
    hasReceipt: Option<bool>,
    isRecurring: Option<bool>,
    tags: seq<string>)

  /** The record clearAllFilters produces, which is also the list screen's initial
      criteria. */
  const Cleared: ExpenseFilters :=
    ExpenseFilters("", [], [], "", "", "", "", None, None, [])

  /** The field names of the record. */
  datatype Key = SearchQueryKey | CategoriesKey | CurrenciesKey | DateFromKey | DateToKey
    | MinAmountKey | MaxAmountKey | HasReceiptKey | IsRecurringKey | TagsKey

  /** A key together with a value of that key's type: the arguments of
      `updateFilter(key, value)`. */
  datatype FieldValue =
    | SearchQuery(text: string)
    | Categories(list: seq<string>)
    | Currencies(list: seq<string>)
    | DateFrom(text: string)
    | DateTo(text: string)
    | MinAmount(text: string)
    | MaxAmount(text: string)
    | HasReceipt(flag: Option<bool>)
    | IsRecurring(flag: Option<bool>)
    | Tags(list: seq<string>)

  function KeyOf(v: FieldValue): Key
  {
    match v
    case SearchQuery(_) => SearchQueryKey
    case Categories(_) => CategoriesKey
    case Currencies(_) => CurrenciesKey
    case DateFrom(_) => DateFromKey
    case DateTo(_) => DateToKey
    case MinAmount(_) => MinAmountKey
    case MaxAmount(_) => MaxAmountKey
    case HasReceipt(_) => HasReceiptKey
    case IsRecurring(_) => IsRecurringKey
    case Tags(_) => TagsKey
  }

  /** Reading one field of the record, tagged with its key. */
  function Field(f: ExpenseFilters, k: Key): (v: FieldValue)
    ensures KeyOf(v) == k
  {
    match k
    case SearchQueryKey => SearchQuery(f.searchQuery)
    case CategoriesKey => Categories(f.categories)
    case CurrenciesKey => Currencies(f.currencies)
    case DateFromKey => DateFrom(f.dateFrom)
    case DateToKey => DateTo(f.dateTo)
    case MinAmountKey => MinAmount(f.minAmount)
    case MaxAmountKey => MaxAmount(f.maxAmount)
    case HasReceiptKey => HasReceipt(f.hasReceipt)
    case IsRecurringKey => IsRecurring(f.isRecurring)
    case TagsKey => Tags(f.tags)
  }

  /** updateFilter: `{ ...filters, [key]: value }`. */
  function UpdateFilter(f: ExpenseFilters, v: FieldValue): ExpenseFilters
  {
    match v
    case SearchQuery(t) => f.(searchQuery := t)
    case Categories(l) => f.(categories := l)
    case Currencies(l) => f.(currencies := l)
    case DateFrom(t) => f.(dateFrom := t)
    case DateTo(t) => f.(dateTo := t)
    case MinAmount(t) => f.(minAmount := t)
    case MaxAmount(t) => f.(maxAmount := t)
    case HasReceipt(b) => f.(hasReceipt := b)
    case IsRecurring(b) => f.(isRecurring := b)
    case Tags(l) => f.(tags := l)
  }

  /** A record is determined by its fields. */
  lemma FieldsDetermineRecord(f: ExpenseFilters, g: ExpenseFilters)
    requires forall k :: Field(f, k) == Field(g, k)
    ensures f == g
  {
    assert Field(f, SearchQueryKey) == Field(g, SearchQueryKey);
    assert Field(f, CategoriesKey) == Field(g, CategoriesKey);
    assert Field(f, CurrenciesKey) == Field(g, CurrenciesKey);
    assert Field(f, DateFromKey) == Field(g, DateFromKey);
    assert Field(f, DateToKey) == Field(g, DateToKey);
    assert Field(f, MinAmountKey) == Field(g, MinAmountKey);
    assert Field(f, MaxAmountKey) == Field(g, MaxAmountKey);
    assert Field(f, HasReceiptKey) == Field(g, HasReceiptKey);
    assert Field(f, IsRecurringKey) == Field(g, IsRecurringKey);
    assert Field(f, TagsKey) == Field(g, TagsKey);
  }

  /** updateFilter changes exactly one key: that key reads back the new value and
      every other key keeps its old one. */
  lemma UpdateFilterChangesOneKey(f: ExpenseFilters, v: FieldValue)
    ensures Field(UpdateFilter(f, v), KeyOf(v)) == v
    ensures forall k :: k != KeyOf(v) ==> Field(UpdateFilter(f, v), k) == Field(f, k)
  {
  }

  /** Writing back a field's own value changes nothing. */
  lemma UpdateFilterSameValue(f: ExpenseFilters, k: Key)
    ensures UpdateFilter(f, Field(f, k)) == f
  {
  }

  /** toggleCategory. */
  function ToggleCategory(f: ExpenseFilters, c: string): ExpenseFilters
  {
    UpdateFilter(f, Categories(ToggleMember(f.categories, c)))
  }

  /** toggleCurrency. */
  function ToggleCurrency(f: ExpenseFilters, c: string): ExpenseFilters
  {
    UpdateFilter(f, Currencies(ToggleMember(f.currencies, c)))
  }

  /** A category toggle removes the category when it is present, keeping the others
      in order, and appends it otherwise; every other field is unchanged, and a
      second toggle restores the list (exactly, when the category was absent). */
  lemma ToggleCategoryFacts(f: ExpenseFilters, c: string)
    ensures var r := ToggleCategory(f, c);
      (c in r.categories <==> c !in f.categories)
      && (forall d :: d != c ==> (d in r.categories <==> d in f.categories))
      && (c in f.categories ==> IsSubsequence(r.categories, f.categories))
      && (c !in f.categories ==> r.categories == f.categories + [c])
      && (forall k :: k != CategoriesKey ==> Field(r, k) == Field(f, k))
      && (forall d :: d in ToggleCategory(r, c).categories <==> d in f.categories)
      && (c !in f.categories ==> ToggleCategory(r, c) == f)
  {
    if c in f.categories {
      RemoveAllIsSubsequence(f.categories, c);
    } else {
      ToggleAbsentTwice(f.categories, c);
    }
    ToggleTwiceMembers(f.categories, c);
  }

  /** The currency chips behave like the category chips on the currencies list. */
  lemma ToggleCurrencyFacts(f: ExpenseFilters, c: string)
    ensures var r := ToggleCurrency(f, c);
      (c in r.currencies <==> c !in f.currencies)
      && (forall d :: d != c ==> (d in r.currencies <==> d in f.currencies))
      && (c in f.currencies ==> IsSubsequence(r.currencies, f.currencies))
      && (c !in f.currencies ==> r.currencies == f.currencies + [c])
      && (forall k :: k != CurrenciesKey ==> Field(r, k) == Field(f, k))
      && (forall d :: d in ToggleCurrency(r, c).currencies <==> d in f.currencies)
      && (c !in f.currencies ==> ToggleCurrency(r, c) == f)
  {
    if c in f.currencies {
      RemoveAllIsSubsequence(f.currencies, c);
    } else {
      ToggleAbsentTwice(f.currencies, c);
    }
    ToggleTwiceMembers(f.currencies, c);
  }

  /** The "Has Receipt" and "Recurring Expenses" switches: on means `true`, off
      means `null`. */
  function SwitchValue(on: bool): Option<bool>
  {
    if on then Some(true) else None
  }

  /** A switch shows "on" when its field is `true`. */
  predicate SwitchShown(v: Option<bool>)
  {
    v == Some(true)
  }

  /** The switches never store `false`, and a switch shows the position it was last
      set to. */
  lemma SwitchFacts(on: bool)
    ensures SwitchValue(on) != Some(false)
    ensures SwitchShown(SwitchValue(on)) == on
  {
  }

  /** The save-filter dialog: the name typed so far and whether it is open. */
  datatype SaveDialog = SaveDialog(filterName: string, open: bool)

  /** handleSaveFilter: with a non-blank name the current criteria are saved under
      the trimmed name and the dialog is reset and closed; otherwise nothing
      happens. */
  function SaveFilter(d: SaveDialog, f: ExpenseFilters): (r: (Option<(string, ExpenseFilters)>, SaveDialog))
  {
    var name := Trim(d.filterName);
    if name != "" then (Some((name, f)), SaveDialog("", false)) else (None, d)
  }

  lemma SaveFilterFacts(d: SaveDialog, f: ExpenseFilters)
    ensures var r := SaveFilter(d, f);
      (r.0.Some? <==> !IsBlank(d.filterName))
      && (r.0.Some? ==>
        r.0.value.1 == f && r.0.value.0 == Trim(d.filterName) && r.0.value.0 != ""
        && r.1 == SaveDialog("", false))
      && (r.0.None? ==> r.1 == d)
    ensures var r := SaveFilter(d, f);
      r.0.Some? ==> Trim(r.0.value.0) == r.0.value.0
  {
    TrimIdempotent(d.filterName);
  }
}
