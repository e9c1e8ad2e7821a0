/** The activity feed (components/SocialFeed.tsx): one item per group expense,
    per split and per group, newest first and at most twenty; the relative time
    shown on each item; and the participant chips under it. */
module SocialFeed {
  import opened Base
  import opened Text
  import opened Dates
  import opened Types
  import opened Sorting

  /** The kinds an item may have; the feed builds only the first three. */
  datatype ActivityType = ExpenseAdded | ExpenseSplit | GroupCreated | PaymentMade | MemberJoined

  datatype ActivityItem = ActivityItem(
    id: string,
    kind: ActivityType,
    title: string,
    description: string,
    amount: Option<real>,
    currency: Option<string>,
    userName: string,
    timestamp: DateTime,
    groupName: Option<string>,
    participants: Option<seq<string>>)

  /** How the feed names a user: 'You' for the signed-in user, 'Friend' otherwise. */
  function Who(id: string, uid: string): string
  {
    if id == uid then "You" else "Friend"
  }

  function Names(ids: seq<string>, uid: string): (r: seq<string>)
    ensures |r| == |ids|
    ensures forall k :: 0 <= k < |ids| ==> r[k] == Who(ids[k], uid)
  {
    seq(|ids|, k requires 0 <= k < |ids| => Who(ids[k], uid))
  }

  function ShareUsers(ss: seq<Share>): (r: seq<string>)
    ensures |r| == |ss|
    ensures forall k :: 0 <= k < |ss| ==> r[k] == ss[k].userId
  {
    seq(|ss|, k requires 0 <= k < |ss| => ss[k].userId)
  }

  /** `if (expense.groupId)`: a missing or empty group id is falsy. */
  predicate InGroup(e: Expense)
  {
    e.groupId.Some? && e.groupId.value != ""
  }

  function ExpenseItem(e: Expense, gs: seq<Group>, uid: string): ActivityItem
  {
    ActivityItem("expense_" + e.id, ExpenseAdded, "Added group expense", e.description, Some(e.amount),
      Some(e.currency), Who(e.userId, uid), e.createdAt, GroupName(gs, e.groupId), None)
  }

  /** A split's item: the total of its shares, its participant count, and the
      default currency. */
  function SplitItem(s: Split, gs: seq<Group>, uid: string): ActivityItem
  {
    ActivityItem("split_" + s.id, ExpenseSplit, "Split expense",
      "Split among " + NatToString(|s.participants|) + " people", Some(ShareTotal(s.participants)),
      Some("USD"), Who(s.creatorId, uid), s.createdAt, GroupName(gs, s.groupId),
      Some(Names(ShareUsers(s.participants), uid)))
  }

  function GroupItem(g: Group, uid: string): ActivityItem
  {
    ActivityItem("group_" + g.id, GroupCreated, "Created group", g.name, None, None,
      Who(g.creatorId, uid), g.createdAt, Some(g.name), Some(Names(g.members, uid)))
  }

  /** The items of the expense loop, in list order. */
  function ExpenseItems(es: seq<Expense>, gs: seq<Group>, uid: string): seq<ActivityItem>
  {
    if es == [] then []
    else
      var last := es[|es| - 1];
      ExpenseItems(es[..|es| - 1], gs, uid) + (if InGroup(last) then [ExpenseItem(last, gs, uid)] else [])
  }

  function SplitItems(ss: seq<Split>, gs: seq<Group>, uid: string): (r: seq<ActivityItem>)
    ensures |r| == |ss|
  {
    if ss == [] then [] else SplitItems(ss[..|ss| - 1], gs, uid) + [SplitItem(ss[|ss| - 1], gs, uid)]
  }

  function GroupItems(gs: seq<Group>, uid: string): (r: seq<ActivityItem>)
    ensures |r| == |gs|
  {
    if gs == [] then [] else GroupItems(gs[..|gs| - 1], uid) + [GroupItem(gs[|gs| - 1], uid)]
  }

  /** All items before sorting: the expenses', then the splits', then the groups'. */
  function Items(es: seq<Expense>, ss: seq<Split>, gs: seq<Group>, uid: string): seq<ActivityItem>
  {
    ExpenseItems(es, gs, uid) + SplitItems(ss, gs, uid) + GroupItems(gs, uid)
  }

  /** `new Date(item.timestamp).getTime()`, the sort key. */
  function Time(a: ActivityItem): real
  {
    EpochMs(a.timestamp) as real
  }

  const FeedLimit: nat := 20

  /** The feed: all items sorted newest first (a stable sort), then the first
      twenty. */
  function Feed(es: seq<Expense>, ss: seq<Split>, gs: seq<Group>, uid: string): seq<ActivityItem>
  {
    Take(SortDesc(Items(es, ss, gs, uid), Time), FeedLimit)
  }

  // ------------------------------------------------- building the feed

  lemma ExpenseItemsSnoc(es: seq<Expense>, gs: seq<Group>, uid: string, i: nat)
    requires i < |es|
    ensures ExpenseItems(es[..i + 1], gs, uid)
      == ExpenseItems(es[..i], gs, uid) + (if InGroup(es[i]) then [ExpenseItem(es[i], gs, uid)] else [])
  {
    assert es[..i + 1][..i] == es[..i];
  }

  lemma SplitItemsSnoc(ss: seq<Split>, gs: seq<Group>, uid: string, i: nat)
    requires i < |ss|
    ensures SplitItems(ss[..i + 1], gs, uid) == SplitItems(ss[..i], gs, uid) + [SplitItem(ss[i], gs, uid)]
  {
    assert ss[..i + 1][..i] == ss[..i];
  }

  lemma GroupItemsSnoc(gs: seq<Group>, uid: string, i: nat)
    requires i < |gs|
    ensures GroupItems(gs[..i + 1], uid) == GroupItems(gs[..i], uid) + [GroupItem(gs[i], uid)]
  {
    assert gs[..i + 1][..i] == gs[..i];
  }

  /** The expense loop: `activityItems.push` for each expense in a group. */
  method PushExpenses(items0: seq<ActivityItem>, es: seq<Expense>, gs: seq<Group>, uid: string)
    returns (items: seq<ActivityItem>)
    ensures items == items0 + ExpenseItems(es, gs, uid)
  {
    items := items0;
    var i := 0;
    while i < |es|
      invariant 0 <= i <= |es|
      invariant items == items0 + ExpenseItems(es[..i], gs, uid)
    {
      ExpenseItemsSnoc(es, gs, uid, i);
      if InGroup(es[i]) {
        items := items + [ExpenseItem(es[i], gs, uid)];
      }
      i := i + 1;
    }
    assert es[..i] == es;
  }

  /** The split loop: one push per split. */
  method PushSplits(items0: seq<ActivityItem>, ss: seq<Split>, gs: seq<Group>, uid: string)
    returns (items: seq<ActivityItem>)
    ensures items == items0 + SplitItems(ss, gs, uid)
  {
    items := items0;
    var i := 0;
    while i < |ss|
      invariant 0 <= i <= |ss|
      invariant items == items0 + SplitItems(ss[..i], gs, uid)
    {
      SplitItemsSnoc(ss, gs, uid, i);
      items := items + [SplitItem(ss[i], gs, uid)];
      i := i + 1;
    }
    assert ss[..i] == ss;
  }

  /** The group loop: one push per group. */
  method PushGroups(items0: seq<ActivityItem>, gs: seq<Group>, uid: string)
    returns (items: seq<ActivityItem>)
    ensures items == items0 + GroupItems(gs, uid)
  {
    items := items0;
    var i := 0;
    while i < |gs|
      invariant 0 <= i <= |gs|
      invariant items == items0 + GroupItems(gs[..i], uid)
    {
      GroupItemsSnoc(gs, uid, i);
      items := items + [GroupItem(gs[i], uid)];
      i := i + 1;
    }
    assert gs[..i] == gs;
  }

  /** loadActivityFeed once the three lists are fetched: the three loops, the
      sort, then `slice(0, 20)`. */
  method LoadActivityFeed(es: seq<Expense>, ss: seq<Split>, gs: seq<Group>, uid: string)
    returns (activities: seq<ActivityItem>)
    ensures activities == Feed(es, ss, gs, uid)
  {
    var items := PushExpenses([], es, gs, uid);
    ghost var fromExpenses := ExpenseItems(es, gs, uid);
    assert items == fromExpenses;
    items := PushSplits(items, ss, gs, uid);
    items := PushGroups(items, gs, uid);
    items := SortDesc(items, Time);
    activities := Take(items, FeedLimit);
  }

  // ------------------------------------------------- what the items are

  /** The images under `f` of the elements satisfying `p`, in order. */
  function MapKeep<T, U>(s: seq<T>, p: T -> bool, f: T -> U): seq<U>
    decreases |s|
  {
    if s == [] then [] else MapKeep(s[..|s| - 1], p, f) + (if p(s[|s| - 1]) then [f(s[|s| - 1])] else [])
  }

  lemma {:induction false} MapKeepMembers<T, U>(s: seq<T>, p: T -> bool, f: T -> U, y: U)
    ensures y in MapKeep(s, p, f) <==> exists k :: 0 <= k < |s| && p(s[k]) && y == f(s[k])
    decreases |s|
  {
    if s != [] {
      var init := s[..|s| - 1];
      MapKeepMembers(init, p, f, y);
      if exists k :: 0 <= k < |s| && p(s[k]) && y == f(s[k]) {
        var k :| 0 <= k < |s| && p(s[k]) && y == f(s[k]);
        if k < |init| {
          assert init[k] == s[k];
        }
      }
      if y in MapKeep(init, p, f) {
        var k :| 0 <= k < |init| && p(init[k]) && y == f(init[k]);
        assert s[k] == init[k];
      }
    }
  }

  function ExpenseItemOf(gs: seq<Group>, uid: string): Expense -> ActivityItem
  {
    e => ExpenseItem(e, gs, uid)
  }

  lemma {:induction false} ExpenseItemsAsMap(es: seq<Expense>, gs: seq<Group>, uid: string)
    ensures ExpenseItems(es, gs, uid) == MapKeep(es, InGroup, ExpenseItemOf(gs, uid))
    decreases |es|
  {
    if es != [] {
      ExpenseItemsAsMap(es[..|es| - 1], gs, uid);
    }
  }

  /** An item comes from the expense loop exactly when it is the item of an
      expense in a group. */
  lemma ExpenseItemsMembers(es: seq<Expense>, gs: seq<Group>, uid: string, a: ActivityItem)
    ensures a in ExpenseItems(es, gs, uid) <==> exists k :: 0 <= k < |es| && InGroup(es[k]) && a == ExpenseItem(es[k], gs, uid)
  {
    ExpenseItemsAsMap(es, gs, uid);
    MapKeepMembers(es, InGroup, ExpenseItemOf(gs, uid), a);
  }

  /** The expense loop gives one item per expense in a group, and none for the
      others. */
  lemma {:induction false} ExpenseItemsCount(es: seq<Expense>, gs: seq<Group>, uid: string)
    ensures |ExpenseItems(es, gs, uid)| == |Keep(es, InGroup)|
    decreases |es|
  {
    if es != [] {
      ExpenseItemsCount(es[..|es| - 1], gs, uid);
      KeepSnocLength(es, InGroup);
    }
  }

  /** Filtering one more element at the end adds one when it passes. */
  lemma {:induction false} KeepSnocLength<T>(s: seq<T>, p: T -> bool)
    requires s != []
    ensures |Keep(s, p)| == |Keep(s[..|s| - 1], p)| + (if p(s[|s| - 1]) then 1 else 0)
    decreases |s|
  {
    if |s| > 1 {
      assert s[1..][..|s[1..]| - 1] == s[..|s| - 1][1..];
      KeepSnocLength(s[1..], p);
    }
  }

  lemma {:induction false} SplitItemsIndex(ss: seq<Split>, gs: seq<Group>, uid: string, k: nat)
    requires k < |ss|
    ensures SplitItems(ss, gs, uid)[k] == SplitItem(ss[k], gs, uid)
    decreases |ss|
  {
    if k < |ss| - 1 {
      var init := ss[..|ss| - 1];
      assert init[k] == ss[k];
      SplitItemsIndex(init, gs, uid, k);
    }
  }

  lemma {:induction false} GroupItemsIndex(gs: seq<Group>, uid: string, k: nat)
    requires k < |gs|
    ensures GroupItems(gs, uid)[k] == GroupItem(gs[k], uid)
    decreases |gs|
  {
    if k < |gs| - 1 {
      var init := gs[..|gs| - 1];
      assert init[k] == gs[k];
      GroupItemsIndex(init, uid, k);
    }
  }

  /** Each split gives exactly one item, in order: its amount is the total of the
      split's shares, its description gives the participant count, and it lists
      one name per participant. */
  lemma SplitItemFacts(ss: seq<Split>, gs: seq<Group>, uid: string, k: nat)
    requires k < |ss|
    ensures |SplitItems(ss, gs, uid)| == |ss|
    ensures var a := SplitItems(ss, gs, uid)[k];
      a.id == "split_" + ss[k].id && a.kind == ExpenseSplit
      && a.amount == Some(ShareTotal(ss[k].participants))
      && a.description == "Split among " + NatToString(|ss[k].participants|) + " people"
      && a.participants.Some? && |a.participants.value| == |ss[k].participants|
      && a.timestamp == ss[k].createdAt
  {
    SplitItemsIndex(ss, gs, uid, k);
  }

  /** Each group gives exactly one 'group_created' item, in order. */
  lemma GroupItemFacts(gs: seq<Group>, uid: string, k: nat)
    requires k < |gs|
    ensures |GroupItems(gs, uid)| == |gs|
    ensures var a := GroupItems(gs, uid)[k];
      a.id == "group_" + gs[k].id && a.kind == GroupCreated && a.description == gs[k].name
      && a.groupName == Some(gs[k].name) && a.timestamp == gs[k].createdAt
  {
    GroupItemsIndex(gs, uid, k);
  }

  /** The first character of an id tells which loop made it. */
  function Source(a: ActivityItem): char
  {
    if a.id == [] then ' ' else a.id[0]
  }

  /** Ids carry their source's prefix ('expense_', 'split_', 'group_'), so no
      item of one source has the id of an item of another. */
  lemma SourcesDistinct(es: seq<Expense>, ss: seq<Split>, gs: seq<Group>, uid: string)
    ensures forall a :: a in ExpenseItems(es, gs, uid) ==> Source(a) == 'e'
    ensures forall a :: a in SplitItems(ss, gs, uid) ==> Source(a) == 's'
    ensures forall a :: a in GroupItems(gs, uid) ==> Source(a) == 'g'
    ensures forall a, b :: a in ExpenseItems(es, gs, uid) && b in SplitItems(ss, gs, uid) ==> a.id != b.id
    ensures forall a, b :: a in ExpenseItems(es, gs, uid) && b in GroupItems(gs, uid) ==> a.id != b.id
    ensures forall a, b :: a in SplitItems(ss, gs, uid) && b in GroupItems(gs, uid) ==> a.id != b.id
  {
    forall a | a in ExpenseItems(es, gs, uid) ensures Source(a) == 'e' {
      ExpenseItemsMembers(es, gs, uid, a);
    }
    forall a | a in SplitItems(ss, gs, uid) ensures Source(a) == 's' {
      var k :| 0 <= k < |ss| && SplitItems(ss, gs, uid)[k] == a;
      SplitItemsIndex(ss, gs, uid, k);
    }
    forall a | a in GroupItems(gs, uid) ensures Source(a) == 'g' {
      var k :| 0 <= k < |gs| && GroupItems(gs, uid)[k] == a;
      GroupItemsIndex(gs, uid, k);
    }
  }

  /** The feed holds at most twenty items, newest first, all built from the
      fetched lists, and no item left out is newer than one shown. */
  lemma FeedFacts(es: seq<Expense>, ss: seq<Split>, gs: seq<Group>, uid: string)
    ensures var f := Feed(es, ss, gs, uid); var all := Items(es, ss, gs, uid);
      |f| == (if |all| < FeedLimit then |all| else FeedLimit)
      && SortedDesc(f, Time)
      && (forall a :: a in f ==> a in all)
      && (forall a, j :: a in all && a !in f && 0 <= j < |f| ==> Time(f[j]) >= Time(a))
  {
    var all := Items(es, ss, gs, uid);
    TopFacts(all, Time, FeedLimit);
    assert Feed(es, ss, gs, uid) == Take(SortDesc(all, Time), FeedLimit);
  }

  /** Every item of the feed is a group expense, a split or a group. */
  lemma FeedSources(es: seq<Expense>, ss: seq<Split>, gs: seq<Group>, uid: string, a: ActivityItem)
    requires a in Feed(es, ss, gs, uid)
    ensures (exists k :: 0 <= k < |es| && InGroup(es[k]) && a == ExpenseItem(es[k], gs, uid))
      || (exists k :: 0 <= k < |ss| && a == SplitItem(ss[k], gs, uid))
      || (exists k :: 0 <= k < |gs| && a == GroupItem(gs[k], uid))
  {
    FeedFacts(es, ss, gs, uid);
    var all := Items(es, ss, gs, uid);
    assert a in all;
    if a in ExpenseItems(es, gs, uid) {
      ExpenseItemsMembers(es, gs, uid, a);
    } else if a in SplitItems(ss, gs, uid) {
      var k :| 0 <= k < |ss| && SplitItems(ss, gs, uid)[k] == a;
      SplitItemsIndex(ss, gs, uid, k);
    } else {
      assert a in GroupItems(gs, uid);
      var k :| 0 <= k < |gs| && GroupItems(gs, uid)[k] == a;
      GroupItemsIndex(gs, uid, k);
    }
  }

  // ------------------------------------------------- relative time

  /** formatTimeAgo: whole minutes since the date (`Math.floor` of the quotient;
      a date in the future counts as 'Just now'), then hours, then days, and
      the date itself from a week on. */
  function FormatTimeAgo(date: DateTime, now: DateTime): string
  {
    var minutes := (EpochMs(now) - EpochMs(date)) / 60000;
    if minutes < 1 then "Just now"
    else if minutes < 60 then NatToString(minutes) + "m ago"
    else
      var hours := minutes / 60;
      if hours < 24 then NatToString(hours) + "h ago"
      else
        var days := hours / 24;
        if days < 7 then NatToString(days) + "d ago" else LocaleDate(date)
  }

  /** The bands in milliseconds elapsed: under a minute, under an hour, under a
      day, under a week, and beyond; each band counts whole units of its own. */
  lemma TimeAgoBands(date: DateTime, now: DateTime)
    ensures var e := EpochMs(now) - EpochMs(date); var r := FormatTimeAgo(date, now);
      (e < 60000 ==> r == "Just now")
      && (60000 <= e < 3600000 ==> r == NatToString(e / 60000) + "m ago")
      && (3600000 <= e < 86400000 ==> r == NatToString(e / 3600000) + "h ago")
      && (86400000 <= e < 604800000 ==> r == NatToString(e / 86400000) + "d ago")
      && (604800000 <= e ==> r == LocaleDate(date))
  {
    var e := EpochMs(now) - EpochMs(date);
    var m := e / 60000;
    if 60000 * 60 <= e {
      assert m / 60 == e / 3600000;
      if 3600000 * 24 <= e {
        assert (m / 60) / 24 == e / 86400000;
      }
    }
  }

  // ------------------------------------------------- participant chips

  /** The chips under an item: the first three names, then '+k more' for the
      k others. */
  function Chips(names: seq<string>): seq<string>
  {
    Take(names, 3) + (if |names| > 3 then ["+" + NatToString(|names| - 3) + " more"] else [])
  }

  /** At most four chips: the first three names in order and, only when there are
      more than three, a last chip whose number plus the three shown is the
      number of names. */
  lemma ChipsFacts(names: seq<string>)
    ensures var r := Chips(names);
      |r| == (if |names| <= 3 then |names| else 4)
      && (forall k :: 0 <= k < |r| && k < 3 ==> r[k] == names[k])
      && (|names| > 3 ==>
            IsPrefix("+", r[3]) && IsSuffix(" more", r[3])
            && 3 + DigitsValue(r[3][1..|r[3]| - 5]) == |names|)
  {
    if |names| > 3 {
      var digits := NatToString(|names| - 3);
      var chip := "+" + digits + " more";
      assert chip[1..|chip| - 5] == digits;
      assert chip[|chip| - 5..] == " more";
      DigitsValueOfNat(|names| - 3);
    }
  }

  predicate IsSuffix(q: string, s: string)
  {
    |q| <= |s| && s[|s| - |q|..] == q
  }
}
