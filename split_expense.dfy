/** The split engine of the split-expense dialog (components/SplitExpenseModal.tsx).
    The dialog keeps a participant table: the creator first, always selected, then
    every friend. Handlers replace the table through the transitions below; a
    validator decides whether the table may be saved and a builder turns it into
    the stored split. Amounts are exact reals: `amount / k` is divided as written,
    with no remainder handling. */
module SplitExpense {
  import opened Base
  import opened Text
  import opened Types

  /** One row of the participant table. */
  datatype Participant = Participant(
    userId: string,
    name: string,
    email: string,
    amount: real,
    percentage: real,
    selected: bool)

  function IsSelected(p: Participant): bool
  {
    p.selected
  }

  /** `participants.filter(p => p.selected)`. */
  function Selected(ps: seq<Participant>): seq<Participant>
  {
    Keep(ps, IsSelected)
  }

  /** `reduce((sum, p) => sum + p.amount, 0)`. */
  function AmountTotal(ps: seq<Participant>): real
    decreases |ps|
  {
    if ps == [] then 0.0 else ps[0].amount + AmountTotal(ps[1..])
  }

  /** `reduce((sum, p) => sum + p.percentage, 0)`. */
  function PercentTotal(ps: seq<Participant>): real
    decreases |ps|
  {
    if ps == [] then 0.0 else ps[0].percentage + PercentTotal(ps[1..])
  }

  /** The table's invariant once it is filled: the creator's row comes first and
      is selected. */
  predicate CreatorFirst(ps: seq<Participant>, uid: string)
  {
    |ps| > 0 && ps[0].userId == uid && ps[0].selected
  }

  /** Two tables list the same users with the same selection, whatever their
      amounts and percentages. */
  predicate SameSelection(ps: seq<Participant>, qs: seq<Participant>)
  {
    |ps| == |qs| && forall i :: 0 <= i < |ps| ==> ps[i].userId == qs[i].userId && ps[i].selected == qs[i].selected
  }

  // ---------------------------------------------------------------- initialisation

  function FriendRow(f: FriendLink): Participant
  {
    Participant(f.friendId, OrElse(f.displayName, OrElse(f.email, "Unknown")), OrElse(f.email, ""), 0.0, 0.0, false)
  }

  /** initializeParticipants: the creator's row, selected, then one unselected row
      per friend in the friends' order, every amount and percentage 0. */
  function InitialTable(u: AuthUser, friends: seq<FriendLink>): seq<Participant>
  {
    [Participant(u.uid, OrElse(u.displayName, "You"), OrElse(u.email, ""), 0.0, 0.0, true)]
      + seq(|friends|, i requires 0 <= i < |friends| => FriendRow(friends[i]))
  }

  lemma {:induction false} NoneSelected(ps: seq<Participant>)
    requires forall i :: 0 <= i < |ps| ==> !ps[i].selected
    ensures Selected(ps) == []
    decreases |ps|
  {
    if ps != [] {
      NoneSelected(ps[1..]);
    }
  }

  lemma {:induction false} ZeroAmounts(ps: seq<Participant>)
    requires forall i :: 0 <= i < |ps| ==> ps[i].amount == 0.0 && ps[i].percentage == 0.0
    ensures AmountTotal(ps) == 0.0 && PercentTotal(ps) == 0.0
    decreases |ps|
  {
    if ps != [] {
      ZeroAmounts(ps[1..]);
    }
  }

  /** The initial table starts with the selected creator, holds every friend in
      order, unselected, and nothing is assigned yet: exactly one row is
      selected and all amounts and percentages are 0. */
  lemma InitialTableFacts(u: AuthUser, friends: seq<FriendLink>)
    ensures var t := InitialTable(u, friends);
      |t| == |friends| + 1 && CreatorFirst(t, u.uid)
      && (forall i :: 1 <= i < |t| ==> t[i].userId == friends[i - 1].friendId && !t[i].selected)
      && (forall i :: 0 <= i < |t| ==> t[i].amount == 0.0 && t[i].percentage == 0.0)
      && Selected(t) == [t[0]]
      && AmountTotal(t) == 0.0 && PercentTotal(t) == 0.0
  {
    var t := InitialTable(u, friends);
    NoneSelected(t[1..]);
    ZeroAmounts(t);
    assert Selected(t) == [t[0]] + Selected(t[1..]);
  }

  // ---------------------------------------------------------------- transitions

  /** calculateEqualSplit: with k selected rows, each selected row gets
      `amount / k` and `100 / k` percent, every other row 0 and 0. (With no
      selected row nothing reads the share.) */
  function EqualSplit(ps: seq<Participant>, amount: real): seq<Participant>
  {
    var k := |Selected(ps)|;
    var share := if k == 0 then 0.0 else amount / k as real;
    var pct := if k == 0 then 0.0 else 100.0 / k as real;
    seq(|ps|, i requires 0 <= i < |ps| =>
      if ps[i].selected then ps[i].(amount := share, percentage := pct)
      else ps[i].(amount := 0.0, percentage := 0.0))
  }

  /** toggleParticipant: the signed-in user's own row cannot be toggled; any other
      id flips `selected` on the rows with that id. */
  function Toggle(ps: seq<Participant>, self: Option<string>, id: string): seq<Participant>
  {
    if self == Some(id) then ps
    else
      seq(|ps|, i requires 0 <= i < |ps| =>
        if ps[i].userId == id then ps[i].(selected := !ps[i].selected) else ps[i])
  }

  /** updateParticipantAmount: `parseFloat(text) || 0` becomes the amount of the
      rows with that id. */
  function SetAmount(ps: seq<Participant>, id: string, text: string): seq<Participant>
  {
    var v := NumberOrZero(text);
    seq(|ps|, i requires 0 <= i < |ps| => if ps[i].userId == id then ps[i].(amount := v) else ps[i])
  }

  /** updateParticipantPercentage: the rows with that id get percentage p and amount
      `expense.amount * p / 100`; without an expense nothing changes. */
  function SetPercentage(ps: seq<Participant>, id: string, text: string, expenseAmount: Option<real>): seq<Participant>
  {
    var p := NumberOrZero(text);
    if expenseAmount.None? then ps else SetShare(ps, id, p, PercentOf(expenseAmount.value, p))
  }

  /** `(amount * p) / 100`. */
  function PercentOf(amount: real, p: real): real
  {
    amount * p / 100.0
  }

  function SetShare(ps: seq<Participant>, id: string, p: real, a: real): seq<Participant>
  {
    seq(|ps|, i requires 0 <= i < |ps| =>
      if ps[i].userId == id then ps[i].(percentage := p, amount := a) else ps[i])
  }

  lemma {:induction false} SameSelectionCount(ps: seq<Participant>, qs: seq<Participant>)
    requires SameSelection(ps, qs)
    ensures |Selected(ps)| == |Selected(qs)|
    decreases |ps|
  {
    if ps != [] {
      SameSelectionCount(ps[1..], qs[1..]);
    }
  }

  lemma {:induction false} ConstantTotals(ps: seq<Participant>, a: real, p: real)
    requires forall i :: 0 <= i < |ps| ==> ps[i].amount == a && ps[i].percentage == p
    ensures AmountTotal(ps) == |ps| as real * a && PercentTotal(ps) == |ps| as real * p
    decreases |ps|
  {
    if ps != [] {
      ConstantTotals(ps[1..], a, p);
    }
  }

  /** The equal split assigns `amount / k` and `100 / k` to exactly the selected
      rows and 0 to the others; who is selected does not change. */
  lemma EqualSplitFacts(ps: seq<Participant>, amount: real)
    requires |Selected(ps)| > 0
    ensures var r := EqualSplit(ps, amount); var k := |Selected(ps)| as real;
      SameSelection(ps, r) && |Selected(r)| == |Selected(ps)|
      && forall i :: 0 <= i < |ps| ==>
        (ps[i].selected ==> r[i].amount == amount / k && r[i].percentage == 100.0 / k)
        && (!ps[i].selected ==> r[i].amount == 0.0 && r[i].percentage == 0.0)
  {
    SameSelectionCount(ps, EqualSplit(ps, amount));
  }

  /** With exact arithmetic the selected shares of an equal split add up to the
      expense amount and their percentages to 100. */
  lemma EqualSplitTotals(ps: seq<Participant>, amount: real)
    requires |Selected(ps)| > 0
    ensures AmountTotal(Selected(EqualSplit(ps, amount))) == amount
    ensures PercentTotal(Selected(EqualSplit(ps, amount))) == 100.0
  {
    var r := EqualSplit(ps, amount);
    var k := |Selected(ps)|;
    EqualSplitFacts(ps, amount);
    var sel := Selected(r);
    KeepAll(r, IsSelected);
    forall j | 0 <= j < |sel|
      ensures sel[j].amount == amount / k as real && sel[j].percentage == 100.0 / k as real
    {
      KeepMembers(r, IsSelected, sel[j]);
      var i :| 0 <= i < |r| && r[i] == sel[j];
    }
    ConstantTotals(sel, amount / k as real, 100.0 / k as real);
  }

  /** Toggling another user's row twice restores the table. */
  lemma ToggleTwice(ps: seq<Participant>, self: Option<string>, id: string)
    ensures Toggle(Toggle(ps, self, id), self, id) == ps
  {
  }

  /** A toggle flips `selected` on exactly the rows with the given id, unless that
      id is the signed-in user's, and changes nothing else. */
  lemma ToggleFacts(ps: seq<Participant>, self: Option<string>, id: string)
    ensures var r := Toggle(ps, self, id);
      |r| == |ps|
      && forall i :: 0 <= i < |ps| ==>
        r[i].(selected := ps[i].selected) == ps[i]
        && (r[i].selected != ps[i].selected <==> ps[i].userId == id && self != Some(id))
  {
  }

  /** The creator's row stays first and selected under every transition, so a
      filled table always has a selected row. */
  lemma TransitionsKeepCreator(ps: seq<Participant>, uid: string, id: string, text: string, amount: real, e: Option<real>)
    requires CreatorFirst(ps, uid)
    ensures CreatorFirst(Toggle(ps, Some(uid), id), uid)
    ensures CreatorFirst(EqualSplit(ps, amount), uid)
    ensures CreatorFirst(SetAmount(ps, id, text), uid)
    ensures CreatorFirst(SetPercentage(ps, id, text, e), uid)
    ensures |Selected(ps)| >= 1
  {
    assert Selected(ps) == [ps[0]] + Selected(ps[1..]);
  }

  /** A percentage edit sets that user's percentage to the parsed number (0 when it
      is not a number) and the amount to the same share of the expense; every
      other row is unchanged. */
  lemma SetPercentageFacts(ps: seq<Participant>, id: string, text: string, amount: real)
    ensures var r := SetPercentage(ps, id, text, Some(amount)); var p := NumberOrZero(text);
      SameSelection(ps, r)
      && forall i :: 0 <= i < |ps| ==>
        (ps[i].userId == id ==>
          r[i].percentage == p && r[i].amount == PercentOf(amount, p)
          && r[i].(amount := ps[i].amount, percentage := ps[i].percentage) == ps[i])
        && (ps[i].userId != id ==> r[i] == ps[i])
  {
    var p := NumberOrZero(text);
    SetShareFacts(ps, id, p, PercentOf(amount, p));
  }

  lemma SetShareFacts(ps: seq<Participant>, id: string, p: real, a: real)
    ensures var r := SetShare(ps, id, p, a);
      SameSelection(ps, r)
      && forall i :: 0 <= i < |ps| ==>
        (ps[i].userId == id ==>
          r[i].percentage == p && r[i].amount == a
          && r[i].(amount := ps[i].amount, percentage := ps[i].percentage) == ps[i])
        && (ps[i].userId != id ==> r[i] == ps[i])
  {
  }

  /** An amount edit sets that user's amount to the parsed number (0 when it is not
      a number) and leaves every other field and row unchanged. */
  lemma SetAmountFacts(ps: seq<Participant>, id: string, text: string)
    ensures var r := SetAmount(ps, id, text);
      SameSelection(ps, r)
      && forall i :: 0 <= i < |ps| ==>
        (ps[i].userId == id ==> r[i].amount == NumberOrZero(text) && r[i].(amount := ps[i].amount) == ps[i])
        && (ps[i].userId != id ==> r[i] == ps[i])
  {
  }

  /** The amounts driven by percentages: when every row's amount is its percentage
      of the expense, the total amount is the total percentage of the expense. */
  lemma {:induction false} PercentageDrivenTotal(ps: seq<Participant>, amount: real)
    requires forall i :: 0 <= i < |ps| ==> ps[i].amount == PercentOf(amount, ps[i].percentage)
    ensures AmountTotal(ps) == PercentOf(amount, PercentTotal(ps))
    decreases |ps|
  {
    if ps != [] {
      PercentageDrivenTotal(ps[1..], amount);
    }
  }

  // ---------------------------------------------------------------- validation

  datatype SplitError = NoExpense | TooFewSelected | TotalMismatch | PercentageMismatch

  datatype Check = Passed | Failed(reason: SplitError)

  /** validateSplit, with the alert it raises as the failure reason. */
  function ValidateSplit(ps: seq<Participant>, how: SplitType, expenseAmount: Option<real>): Check
  {
    if expenseAmount.None? then Failed(NoExpense)
    else
      var sel := Selected(ps);
      if |sel| < 2 then Failed(TooFewSelected)
      else if Abs(AmountTotal(sel) - expenseAmount.value) > 0.01 then Failed(TotalMismatch)
      else if how == ByPercentage && Abs(PercentTotal(sel) - 100.0) > 0.1 then Failed(PercentageMismatch)
      else Passed
  }

  /** A table passes exactly when there is an expense, at least two rows are
      selected, the selected amounts are within 0.01 of the expense amount and, for
      the percentage method, the selected percentages within 0.1 of 100. */
  lemma ValidateSplitMeaning(ps: seq<Participant>, how: SplitType, expenseAmount: Option<real>)
    ensures ValidateSplit(ps, how, expenseAmount).Passed? <==>
      expenseAmount.Some?
      && |Selected(ps)| >= 2
      && -0.01 <= AmountTotal(Selected(ps)) - expenseAmount.value <= 0.01
      && (how == ByPercentage ==> -0.1 <= PercentTotal(Selected(ps)) - 100.0 <= 0.1)
    ensures expenseAmount.Some? && |Selected(ps)| < 2 ==>
      ValidateSplit(ps, how, expenseAmount) == Failed(TooFewSelected)
  {
  }

  /** An equal split with at least two selected rows passes validation under every
      method. */
  lemma EqualSplitPasses(ps: seq<Participant>, how: SplitType, amount: real)
    requires |Selected(ps)| >= 2
    ensures ValidateSplit(EqualSplit(ps, amount), how, Some(amount)) == Passed
  {
    EqualSplitTotals(ps, amount);
    EqualSplitFacts(ps, amount);
  }

  // ---------------------------------------------------------------- the stored split

  /** The record handleCreateSplit passes to createSplit (the store adds the id and
      the timestamps). */
  datatype NewSplit = NewSplit(
    expenseId: string,
    creatorId: string,
    participants: seq<Share>,
    splitType: SplitType,
    groupId: Option<string>)

  function ShareOf(p: Participant, uid: string): Share
  {
    Share(p.userId, p.amount, p.userId == uid, false)
  }

  function BuildSplit(ps: seq<Participant>, how: SplitType, e: Expense, uid: string): NewSplit
  {
    var sel := Selected(ps);
    NewSplit(e.id, uid, seq(|sel|, i requires 0 <= i < |sel| => ShareOf(sel[i], uid)), how, e.groupId)
  }

  datatype CreateError = MissingExpense | MissingUser | Invalid(reason: SplitError)

  /** handleCreateSplit up to the store call: nothing without an expense, a user
      and a valid table; otherwise the split built from the table. */
  function CreateSplit(ps: seq<Participant>, how: SplitType, e: Option<Expense>, u: Option<AuthUser>): Result<NewSplit, CreateError>
  {
    if e.None? then Err(MissingExpense)
    else if u.None? then Err(MissingUser)
    else match ValidateSplit(ps, how, Some(e.value.amount))
      case Failed(why) => Err(Invalid(why))
      case Passed => Ok(BuildSplit(ps, how, e.value, u.value.uid))
  }

  lemma {:induction false} ShareTotalOf(sel: seq<Participant>, uid: string)
    ensures ShareTotal(seq(|sel|, i requires 0 <= i < |sel| => ShareOf(sel[i], uid))) == AmountTotal(sel)
    decreases |sel|
  {
    if sel != [] {
      ShareTotalOf(sel[1..], uid);
      var ss := seq(|sel|, i requires 0 <= i < |sel| => ShareOf(sel[i], uid));
      assert ss[1..] == seq(|sel[1..]|, i requires 0 <= i < |sel[1..]| => ShareOf(sel[1..][i], uid));
    }
  }

  /** The stored split lists exactly the selected rows in table order, with their
      amounts; only the creator has paid, nobody has settled, the type is the
      chosen method and the group is the expense's. */
  lemma BuildSplitFacts(ps: seq<Participant>, how: SplitType, e: Expense, uid: string)
    ensures var r := BuildSplit(ps, how, e, uid); var sel := Selected(ps);
      |r.participants| == |sel|
      && (forall i :: 0 <= i < |sel| ==>
        r.participants[i].userId == sel[i].userId && r.participants[i].amount == sel[i].amount
        && (r.participants[i].paid <==> sel[i].userId == uid) && !r.participants[i].settled)
      && r.creatorId == uid && r.expenseId == e.id && r.splitType == how && r.groupId == e.groupId
      && ShareTotal(r.participants) == AmountTotal(sel)
  {
    ShareTotalOf(Selected(ps), uid);
  }

  /** A created split has at least two shares whose amounts are within 0.01 of the
      expense amount; from a table whose first row is the creator, its first share
      is the creator's and is marked paid. */
  lemma CreatedSplitFacts(ps: seq<Participant>, how: SplitType, e: Option<Expense>, u: Option<AuthUser>)
    ensures var r := CreateSplit(ps, how, e, u);
      (r.Ok? <==> e.Some? && u.Some? && ValidateSplit(ps, how, Some(e.value.amount)) == Passed)
      && (r.Ok? ==>
        |r.value.participants| >= 2
        && -0.01 <= ShareTotal(r.value.participants) - e.value.amount <= 0.01
        && (CreatorFirst(ps, u.value.uid) ==> r.value.participants[0].userId == u.value.uid && r.value.participants[0].paid))
  {
    var r := CreateSplit(ps, how, e, u);
    if r.Ok? {
      BuildSplitFacts(ps, how, e.value, u.value.uid);
      if CreatorFirst(ps, u.value.uid) {
        assert Selected(ps) == [ps[0]] + Selected(ps[1..]);
      }
    }
  }

  // ---------------------------------------------------------------- the dialog's state

  /** The dialog's state: the signed-in user and the expense being split are fixed
      while it is open; the friends list, the table and the split method are the
      state the handlers replace. */
  class SplitDialog {
    const user: Option<AuthUser>
    const expense: Option<Expense>
    var friends: seq<FriendLink>
    var participants: seq<Participant>
    var splitMethod: SplitType

    /** The table is empty until it is initialised, and from then on starts with the
        signed-in user's selected row. */
    predicate Valid()
      reads this
    {
      participants == [] || (user.Some? && CreatorFirst(participants, user.value.uid))
    }

    function ExpenseAmount(): Option<real>
    {
      if expense.Some? then Some(expense.value.amount) else None
    }

    function Self(): Option<string>
    {
      if user.Some? then Some(user.value.uid) else None
    }

    constructor(user: Option<AuthUser>, expense: Option<Expense>)
      ensures this.user == user && this.expense == expense
      ensures friends == [] && participants == [] && splitMethod == Equal
      ensures Valid()
    {
      this.user := user;
      this.expense := expense;
      friends := [];
      participants := [];
      splitMethod := Equal;
    }

    /** The friends list arriving from the store. */
    method SetFriends(fs: seq<FriendLink>)
      modifies this
      ensures friends == fs && participants == old(participants) && splitMethod == old(splitMethod)
    {
      friends := fs;
    }

    method InitializeParticipants()
      requires Valid()
      modifies this
      ensures participants == if expense.Some? && user.Some? then InitialTable(user.value, friends) else old(participants)
      ensures friends == old(friends) && splitMethod == old(splitMethod)
      ensures Valid()
    {
      if expense.Some? && user.Some? {
        participants := InitialTable(user.value, friends);
        InitialTableFacts(user.value, friends);
      }
    }

    method CalculateEqualSplit()
      requires Valid()
      modifies this
      ensures participants == if expense.Some? then EqualSplit(old(participants), expense.value.amount) else old(participants)
      ensures friends == old(friends) && splitMethod == old(splitMethod)
      ensures Valid()
    {
      if expense.Some? {
        if participants != [] {
          TransitionsKeepCreator(participants, user.value.uid, "", "", expense.value.amount, None);
        }
        participants := EqualSplit(participants, expense.value.amount);
      }
    }

    method ToggleParticipant(id: string)
      requires Valid()
      modifies this
      ensures participants == Toggle(old(participants), Self(), id)
      ensures friends == old(friends) && splitMethod == old(splitMethod)
      ensures Valid()
    {
      if participants != [] {
        TransitionsKeepCreator(participants, user.value.uid, id, "", 0.0, None);
      }
      participants := Toggle(participants, Self(), id);
    }

    method UpdateParticipantAmount(id: string, text: string)
      requires Valid()
      modifies this
      ensures participants == SetAmount(old(participants), id, text)
      ensures friends == old(friends) && splitMethod == old(splitMethod)
      ensures Valid()
    {
      if participants != [] {
        TransitionsKeepCreator(participants, user.value.uid, id, text, 0.0, None);
      }
      participants := SetAmount(participants, id, text);
    }

    method UpdateParticipantPercentage(id: string, text: string)
      requires Valid()
      modifies this
      ensures participants == SetPercentage(old(participants), id, text, ExpenseAmount())
      ensures friends == old(friends) && splitMethod == old(splitMethod)
      ensures Valid()
    {
      if participants != [] {
        TransitionsKeepCreator(participants, user.value.uid, id, text, 0.0, ExpenseAmount());
      }
      participants := SetPercentage(participants, id, text, ExpenseAmount());
    }

    /** The three method buttons. */
    method SetSplitMethod(m: SplitType)
      modifies this
      ensures splitMethod == m && participants == old(participants) && friends == old(friends)
    {
      splitMethod := m;
    }

    /** The outcome of pressing "create": the split to store, or why there is none.
        While the table is valid, a created split always starts with the creator's
        paid share. */
    method HandleCreateSplit() returns (r: Result<NewSplit, CreateError>)
      requires Valid()
      ensures r == CreateSplit(participants, splitMethod, expense, user)
      ensures r.Ok? ==>
        |r.value.participants| >= 2 && r.value.participants[0].paid
        && r.value.participants[0].userId == user.value.uid
    {
      r := CreateSplit(participants, splitMethod, expense, user);
      CreatedSplitFacts(participants, splitMethod, expense, user);
      if r.Ok? {
        assert |Selected(participants)| >= 2;
      }
    }
  }
}
