/** The add-expense form (components/ExpenseForm.tsx): its field record, the tag
    list edited by addTag and removeTag, the reset to defaults, and the checks
    and payload of handleSubmit. The date field holds the ISO text of the day,
    and `new Date(text)` is the parameter `parseDate`. */
module ExpenseForm {
  import opened Base
  import opened Text
  import opened Dates
  import opened Types

  datatype FormData = FormData(
    description: string,
    amount: string,
    category: string,
    currency: string,
    date: string,
    notes: string,
    tags: seq<string>,
    isRecurring: bool,
    recurringType: Recurrence)

  /** The optional prefill: description, amount and category. */
  datatype InitialData = InitialData(description: Option<string>, amount: Option<real>, category: Option<string>)

  /** The form's first state. `num` is the amount's `toString()`; a missing or
      empty prefill falls back to the defaults. */
  function InitialForm(init: Option<InitialData>, num: real -> string, today: DateTime): (r: FormData)
    requires ValidDate(today)
    ensures r.tags == [] && !r.isRecurring && r.recurringType == Monthly && r.currency == "USD" && r.notes == ""
    ensures r.date == IsoDate(today)
    ensures init.None? ==> r.description == "" && r.amount == "" && r.category == ExpenseCategories[0]
  {
    var description := if init.Some? then OrElse(init.value.description, "") else "";
    var amount := if init.Some? && init.value.amount.Some? then num(init.value.amount.value) else "";
    var category := if init.Some? then OrElse(init.value.category, ExpenseCategories[0]) else ExpenseCategories[0];
    FormData(description, amount, category, "USD", IsoDate(today), "", [], false, Monthly)
  }

  /** resetForm's record. */
  function Defaults(today: DateTime): FormData
    requires ValidDate(today)
  {
    FormData("", "", ExpenseCategories[0], "USD", IsoDate(today), "", [], false, Monthly)
  }

  /** resetForm restores the first state the form has without a prefill: the
      first category ('Food & Dining'), US dollars, no tags, not recurring,
      monthly. */
  lemma ResetIsInitial(num: real -> string, today: DateTime)
    requires ValidDate(today)
    ensures Defaults(today) == InitialForm(None, num, today)
    ensures Defaults(today).category == "Food & Dining"
  {
  }

  // ------------------------------------------------- tags

  /** The invariant of the tag list: no tag twice, and every tag trimmed and not
      empty. */
  predicate CleanTags(tags: seq<string>)
  {
    NoDuplicates(tags) && forall k :: 0 <= k < |tags| ==> tags[k] != "" && Trim(tags[k]) == tags[k]
  }

  /** addTag: the trimmed input is appended when it is not blank and not already
      a tag, and then the input is cleared; otherwise nothing changes. */
  function AddTagTo(tags: seq<string>, input: string): (seq<string>, string)
  {
    var t := Trim(input);
    if t != "" && t !in tags then (tags + [t], "") else (tags, input)
  }

  /** Adding succeeds exactly for a new, non-blank tag; the input is cleared
      exactly then, and the list stays clean. */
  lemma AddTagFacts(tags: seq<string>, input: string)
    ensures var (r, rest) := AddTagTo(tags, input);
      (!IsBlank(input) && Trim(input) !in tags ==> r == tags + [Trim(input)] && rest == "")
      && (IsBlank(input) || Trim(input) in tags ==> r == tags && rest == input)
    ensures CleanTags(tags) ==> CleanTags(AddTagTo(tags, input).0)
  {
    var t := Trim(input);
    if t != "" && t !in tags && CleanTags(tags) {
      TrimIdempotent(input);
      AppendNoDuplicates(tags, t);
      var r := tags + [t];
      assert AddTagTo(tags, input).0 == r;
      forall k | 0 <= k < |r| ensures r[k] != "" && Trim(r[k]) == r[k] {
        if k < |tags| {
          assert r[k] == tags[k];
        }
      }
    }
  }

  /** removeTag: every copy of the tag goes, the others keep their order, and the
      list stays clean. */
  lemma RemoveTagFacts(tags: seq<string>, t: string)
    ensures t !in RemoveAll(tags, t)
    ensures forall x :: x in RemoveAll(tags, t) <==> x in tags && x != t
    ensures IsSubsequence(RemoveAll(tags, t), tags)
    ensures CleanTags(tags) ==> CleanTags(RemoveAll(tags, t))
  {
    RemoveAllIsSubsequence(tags, t);
    if CleanTags(tags) {
      RemoveAllNoDuplicates(tags, t);
      var r := RemoveAll(tags, t);
      forall k | 0 <= k < |r| ensures r[k] != "" && Trim(r[k]) == r[k] {
        assert r[k] in tags;
      }
    }
  }

  // ------------------------------------------------- submission

  datatype SubmitError = MissingFields | SignedOut

  /** What addExpense receives. `amount` is `parseFloat` of the text, None for
      NaN; `date` is `new Date(text)`, None for an invalid date. */
  datatype NewExpense = NewExpense(
    userId: string,
    description: string,
    amount: Option<real>,
    category: string,
    currency: string,
    date: Option<DateTime>,
    notes: string,
    tags: seq<string>,
    isRecurring: bool,
    recurringType: Option<Recurrence>,
    groupId: Option<string>,
    receiptUrl: Option<string>)

  /** handleSubmit up to the addExpense call: the alert for a blank description
      or amount, the silent return without a user, and the payload. */
  function Submit(f: FormData, receipt: Option<string>, user: Option<AuthUser>, groupId: Option<string>,
                  parseDate: string -> Option<DateTime>): Result<NewExpense, SubmitError>
  {
    if IsBlank(f.description) || IsBlank(f.amount) then Err(MissingFields)
    else if user.None? then Err(SignedOut)
    else Ok(NewExpense(user.value.uid, Trim(f.description), ParseFloat(f.amount), f.category, f.currency,
      parseDate(f.date), Trim(f.notes), f.tags, f.isRecurring,
      if f.isRecurring then Some(f.recurringType) else None, groupId, receipt))
  }

  /** A blank description or amount is refused whoever is signed in; otherwise
      the expense is sent exactly when there is a user, with description and
      notes trimmed, the user's id, the form's tags (clean when the form's are),
      and a recurrence only for a recurring expense. */
  lemma SubmitFacts(f: FormData, receipt: Option<string>, user: Option<AuthUser>, groupId: Option<string>,
                    parseDate: string -> Option<DateTime>)
    ensures var r := Submit(f, receipt, user, groupId, parseDate);
      (r == Err(MissingFields) <==> IsBlank(f.description) || IsBlank(f.amount))
      && (r.Ok? <==> !IsBlank(f.description) && !IsBlank(f.amount) && user.Some?)
      && (r.Ok? ==>
            r.value.userId == user.value.uid
            && r.value.description == Trim(f.description) && r.value.description != ""
            && r.value.notes == Trim(f.notes)
            && r.value.amount == ParseFloat(f.amount)
            && r.value.tags == f.tags && (CleanTags(f.tags) ==> CleanTags(r.value.tags))
            && (r.value.recurringType.Some? <==> f.isRecurring)
            && r.value.groupId == groupId && r.value.receiptUrl == receipt)
  {
  }

  // ------------------------------------------------- the form's state

  class FormState {
    var formData: FormData
    var tagInput: string
    var receiptUri: Option<string>

    predicate Valid()
      reads this
    {
      CleanTags(formData.tags)
    }

    constructor(init: Option<InitialData>, num: real -> string, today: DateTime)
      requires ValidDate(today)
      ensures formData == InitialForm(init, num, today) && tagInput == "" && receiptUri == None
      ensures Valid()
    {
      formData := InitialForm(init, num, today);
      tagInput := "";
      receiptUri := None;
    }

    /** The tag field's onChangeText. */
    method SetTagInput(text: string)
      modifies this
      ensures tagInput == text && formData == old(formData) && receiptUri == old(receiptUri)
    {
      tagInput := text;
    }

    method AddTag()
      requires Valid()
      modifies this
      ensures (formData.tags, tagInput) == AddTagTo(old(formData.tags), old(tagInput))
      ensures formData == old(formData).(tags := formData.tags) && receiptUri == old(receiptUri)
      ensures Valid()
    {
      AddTagFacts(formData.tags, tagInput);
      var (tags, rest) := AddTagTo(formData.tags, tagInput);
      formData := formData.(tags := tags);
      tagInput := rest;
    }

    method RemoveTag(t: string)
      requires Valid()
      modifies this
      ensures formData == old(formData).(tags := RemoveAll(old(formData.tags), t))
      ensures tagInput == old(tagInput) && receiptUri == old(receiptUri)
      ensures Valid()
    {
      RemoveTagFacts(formData.tags, t);
      formData := formData.(tags := RemoveAll(formData.tags, t));
    }

    method ResetForm(today: DateTime)
      requires ValidDate(today)
      modifies this
      ensures formData == Defaults(today) && receiptUri == None && tagInput == ""
      ensures Valid()
    {
      formData := Defaults(today);
      receiptUri := None;
      tagInput := "";
    }

    /** handleSubmit, with addExpense succeeding: a sent expense resets the form;
        a refused one leaves it as it was. */
    method HandleSubmit(user: Option<AuthUser>, groupId: Option<string>,
                        parseDate: string -> Option<DateTime>, today: DateTime)
      returns (r: Result<NewExpense, SubmitError>)
      requires ValidDate(today) && Valid()
      modifies this
      ensures r == Submit(old(formData), old(receiptUri), user, groupId, parseDate)
      ensures r.Ok? ==> formData == Defaults(today) && receiptUri == None && tagInput == ""
      ensures r.Err? ==> formData == old(formData) && receiptUri == old(receiptUri) && tagInput == old(tagInput)
      ensures Valid()
    {
      r := Submit(formData, receiptUri, user, groupId, parseDate);
      if r.Ok? {
        ResetForm(today);
      }
    }
  }
}
