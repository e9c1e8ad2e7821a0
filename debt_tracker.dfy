/** The debt overview (components/DebtTracker.tsx): the signed-in user's splits are
    folded into one summary per counterparty, near-zero summaries are dropped,
    and the totals owed in each direction are summed. */
module DebtTracker {
  import opened Base
  import opened Dates
  import opened Types

  datatype DebtKind = OwesYou | YouOwe

  datatype Transaction = Transaction(
    id: string,
    description: string,
    amount: real,
    date: DateTime,
    groupName: Option<string>)

  datatype DebtSummary = DebtSummary(
    userId: string,
    userName: string,
    userEmail: string,
    amount: real,
    kind: DebtKind,
    transactions: seq<Transaction>)

  /** What the fold reads besides the splits: the signed-in user's id, the friends
      and the groups fetched with them. */
  datatype Context = Context(uid: string, friends: seq<FriendLink>, groups: seq<Group>)

  /** One participant of one split, in the order the nested loops visit them. */
  type Visit = (Split, Share)

  function VisitsOf(sp: Split): (r: seq<Visit>)
    ensures |r| == |sp.participants|
  {
    seq(|sp.participants|, k requires 0 <= k < |sp.participants| => (sp, sp.participants[k]))
  }

  /** Every participant of every split, split by split. */
  function Visits(splits: seq<Split>): seq<Visit>
  {
    if splits == [] then [] else Visits(splits[..|splits| - 1]) + VisitsOf(splits[|splits| - 1])
  }

  /** A visit contributes unless it is the user's own share or already settled. */
  predicate Counts(x: Visit, uid: string)
  {
    x.1.userId != uid && !x.1.settled
  }

  function KindFor(sp: Split, uid: string): DebtKind
  {
    if sp.creatorId == uid then OwesYou else YouOwe
  }

  function UserName(fs: seq<FriendLink>, id: string): string
  {
    var f := FindFriend(fs, id);
    if f.Some? then OrElse(f.value.displayName, "Unknown User") else "Unknown User"
  }

  function UserEmail(fs: seq<FriendLink>, id: string): string
  {
    var f := FindFriend(fs, id);
    if f.Some? then OrElse(f.value.email, "") else ""
  }

  function TransactionFor(x: Visit, ctx: Context): Transaction
  {
    Transaction(x.0.id, "Split expense", x.1.amount, x.0.createdAt, GroupName(ctx.groups, x.0.groupId))
  }

  // ------------------------------------------------- reference definitions

  /** The plain sum of the counterparty's contributing shares, in either direction. */
  function DebtOf(xs: seq<Visit>, v: string, uid: string): real
  {
    if xs == [] then 0.0
    else
      var x := xs[|xs| - 1];
      DebtOf(xs[..|xs| - 1], v, uid) + (if Counts(x, uid) && x.1.userId == v then x.1.amount else 0.0)
  }

  /** The counterparty's contributing shares as transactions, in visiting order. */
  function TransactionsOf(xs: seq<Visit>, v: string, ctx: Context): seq<Transaction>
  {
    if xs == [] then []
    else
      var x := xs[|xs| - 1];
      TransactionsOf(xs[..|xs| - 1], v, ctx) + (if Counts(x, ctx.uid) && x.1.userId == v then [TransactionFor(x, ctx)] else [])
  }

  /** The direction given by the counterparty's last contributing share; none if it
      has none. */
  function LastKindOf(xs: seq<Visit>, v: string, uid: string): Option<DebtKind>
  {
    if xs == [] then None
    else
      var x := xs[|xs| - 1];
      if Counts(x, uid) && x.1.userId == v then Some(KindFor(x.0, uid)) else LastKindOf(xs[..|xs| - 1], v, uid)
  }

  function TransactionTotal(ts: seq<Transaction>): real
  {
    if ts == [] then 0.0 else TransactionTotal(ts[..|ts| - 1]) + ts[|ts| - 1].amount
  }

  // ------------------------------------------------- the fold

  function Ids(ds: seq<DebtSummary>): (r: seq<string>)
    ensures |r| == |ds| && forall i :: 0 <= i < |ds| ==> r[i] == ds[i].userId
  {
    seq(|ds|, i requires 0 <= i < |ds| => ds[i].userId)
  }

  /** The position of the counterparty's summary, or `|ds|` when it has none. */
  function IndexOf(ds: seq<DebtSummary>, v: string): (k: nat)
    ensures k <= |ds|
    ensures k < |ds| ==> ds[k].userId == v
    ensures forall i :: 0 <= i < k ==> ds[i].userId != v
  {
    if ds == [] then 0 else if ds[0].userId == v then 0 else 1 + IndexOf(ds[1..], v)
  }

  /** One visit of the nested loops: a contributing share adds its amount to the
      counterparty's summary (created on first sight), sets its direction by who
      created the split, and appends one transaction. */
  function Step(ds: seq<DebtSummary>, x: Visit, ctx: Context): seq<DebtSummary>
  {
    if !Counts(x, ctx.uid) then ds
    else
      var w := x.1.userId;
      var k := IndexOf(ds, w);
      var tx := TransactionFor(x, ctx);
      if k == |ds| then
        ds + [DebtSummary(w, UserName(ctx.friends, w), UserEmail(ctx.friends, w), x.1.amount, KindFor(x.0, ctx.uid), [tx])]
      else
        ds[k := ds[k].(amount := ds[k].amount + x.1.amount, kind := KindFor(x.0, ctx.uid), transactions := ds[k].transactions + [tx])]
  }

  /** The debt map after the given visits, in insertion order (`Object.values`). */
  function Fold(xs: seq<Visit>, ctx: Context): seq<DebtSummary>
  {
    if xs == [] then [] else Step(Fold(xs[..|xs| - 1], ctx), xs[|xs| - 1], ctx)
  }

  /** A summary agrees with the reference definitions for its counterparty. */
  predicate Describes(d: DebtSummary, xs: seq<Visit>, ctx: Context)
  {
    d.userId != ctx.uid
    && d.userName == UserName(ctx.friends, d.userId)
    && d.userEmail == UserEmail(ctx.friends, d.userId)
    && d.amount == DebtOf(xs, d.userId, ctx.uid)
    && LastKindOf(xs, d.userId, ctx.uid) == Some(d.kind)
    && d.transactions == TransactionsOf(xs, d.userId, ctx)
  }

  ghost predicate FoldInvariant(ds: seq<DebtSummary>, xs: seq<Visit>, ctx: Context)
  {
    NoDuplicates(Ids(ds))
    && (forall i :: 0 <= i < |ds| ==> Describes(ds[i], xs, ctx))
    && (forall v :: v !in Ids(ds) ==>
          DebtOf(xs, v, ctx.uid) == 0.0 && TransactionsOf(xs, v, ctx) == [] && LastKindOf(xs, v, ctx.uid) == None)
  }

  /** How one more visit changes the reference definitions. */
  lemma AppendVisit(xs: seq<Visit>, x: Visit, v: string, ctx: Context)
    ensures var hit := Counts(x, ctx.uid) && x.1.userId == v;
      DebtOf(xs + [x], v, ctx.uid) == DebtOf(xs, v, ctx.uid) + (if hit then x.1.amount else 0.0)
      && TransactionsOf(xs + [x], v, ctx) == TransactionsOf(xs, v, ctx) + (if hit then [TransactionFor(x, ctx)] else [])
      && LastKindOf(xs + [x], v, ctx.uid) == (if hit then Some(KindFor(x.0, ctx.uid)) else LastKindOf(xs, v, ctx.uid))
  {
    assert (xs + [x])[..|xs|] == xs;
  }

  lemma StepKeepsInvariant(ds: seq<DebtSummary>, xs: seq<Visit>, x: Visit, ctx: Context)
    requires FoldInvariant(ds, xs, ctx)
    ensures FoldInvariant(Step(ds, x, ctx), xs + [x], ctx)
  {
    var ys := xs + [x];
    forall v {
      AppendVisit(xs, x, v, ctx);
    }
    var r := Step(ds, x, ctx);
    if Counts(x, ctx.uid) {
      var w := x.1.userId;
      var k := IndexOf(ds, w);
      if k == |ds| {
        assert w !in Ids(ds);
        assert Ids(r) == Ids(ds) + [w];
        forall i | 0 <= i < |r| ensures Describes(r[i], ys, ctx) {
          if i < |ds| {
            assert r[i] == ds[i] && Describes(ds[i], xs, ctx);
          }
        }
      } else {
        assert Ids(r) == Ids(ds);
        forall i | 0 <= i < |r| ensures Describes(r[i], ys, ctx) {
          if i != k {
            assert Ids(ds)[i] != Ids(ds)[k];
            assert r[i] == ds[i] && Describes(ds[i], xs, ctx);
          }
        }
      }
    }
  }

  lemma {:induction false} FoldCorrect(xs: seq<Visit>, ctx: Context)
    ensures FoldInvariant(Fold(xs, ctx), xs, ctx)
    decreases |xs|
  {
    if xs == [] {
      assert Ids([]) == [];
    } else {
      var init := xs[..|xs| - 1];
      FoldCorrect(init, ctx);
      assert init + [xs[|xs| - 1]] == xs;
      StepKeepsInvariant(Fold(init, ctx), init, xs[|xs| - 1], ctx);
    }
  }

  /** A counterparty's transaction amounts add up to its debt. */
  lemma {:induction false} TransactionsSumToDebt(xs: seq<Visit>, v: string, ctx: Context)
    ensures TransactionTotal(TransactionsOf(xs, v, ctx)) == DebtOf(xs, v, ctx.uid)
    decreases |xs|
  {
    if xs != [] {
      var init := xs[..|xs| - 1];
      var x := xs[|xs| - 1];
      TransactionsSumToDebt(init, v, ctx);
      var t := TransactionsOf(init, v, ctx);
      if Counts(x, ctx.uid) && x.1.userId == v {
        var t' := t + [TransactionFor(x, ctx)];
        assert t'[..|t'| - 1] == t;
        assert TransactionsOf(xs, v, ctx) == t';
        assert DebtOf(xs, v, ctx.uid) == DebtOf(init, v, ctx.uid) + x.1.amount;
      } else {
        assert TransactionsOf(xs, v, ctx) == t + [] == t;
      }
    }
  }

  /** The user's own shares and settled shares leave the map unchanged. */
  lemma IgnoredVisits(xs: seq<Visit>, x: Visit, ctx: Context)
    requires x.1.userId == ctx.uid || x.1.settled
    ensures Fold(xs + [x], ctx) == Fold(xs, ctx)
  {
    assert (xs + [x])[..|xs|] == xs;
  }

  /** A counterparty that contributes to a later stretch of visits takes its
      direction from that stretch alone. */
  lemma {:induction false} LastKindOfSuffix(xs: seq<Visit>, ys: seq<Visit>, v: string, uid: string)
    requires exists k :: 0 <= k < |ys| && Counts(ys[k], uid) && ys[k].1.userId == v
    ensures LastKindOf(xs + ys, v, uid) == LastKindOf(ys, v, uid)
    decreases |ys|
  {
    var zs := xs + ys;
    var y := ys[|ys| - 1];
    assert zs[|zs| - 1] == y;
    assert zs[..|zs| - 1] == xs + ys[..|ys| - 1];
    if !(Counts(y, uid) && y.1.userId == v) {
      var k :| 0 <= k < |ys| && Counts(ys[k], uid) && ys[k].1.userId == v;
      assert k < |ys| - 1;
      assert ys[..|ys| - 1][k] == ys[k];
      LastKindOfSuffix(xs, ys[..|ys| - 1], v, uid);
    }
  }

  /** Within one split every contributing share points the same way. */
  lemma {:induction false} LastKindOfSameSplit(ys: seq<Visit>, sp: Split, v: string, uid: string)
    requires forall k :: 0 <= k < |ys| ==> ys[k].0 == sp
    requires exists k :: 0 <= k < |ys| && Counts(ys[k], uid) && ys[k].1.userId == v
    ensures LastKindOf(ys, v, uid) == Some(KindFor(sp, uid))
    decreases |ys|
  {
    var y := ys[|ys| - 1];
    if !(Counts(y, uid) && y.1.userId == v) {
      var k :| 0 <= k < |ys| && Counts(ys[k], uid) && ys[k].1.userId == v;
      assert k < |ys| - 1;
      assert ys[..|ys| - 1][k] == ys[k];
      LastKindOfSameSplit(ys[..|ys| - 1], sp, v, uid);
    }
  }

  /** The direction of a debt is decided by the last split in which the
      counterparty has an unsettled share: they owe the user when the user
      created that split, and the user owes them otherwise. */
  lemma LastSplitDecides(splits: seq<Split>, v: string, uid: string)
    requires splits != []
    requires exists p :: p in splits[|splits| - 1].participants && p.userId == v && v != uid && !p.settled
    ensures LastKindOf(Visits(splits), v, uid) == Some(if splits[|splits| - 1].creatorId == uid then OwesYou else YouOwe)
  {
    var sp := splits[|splits| - 1];
    var ys := VisitsOf(sp);
    var p :| p in sp.participants && p.userId == v && v != uid && !p.settled;
    var k :| 0 <= k < |sp.participants| && sp.participants[k] == p;
    assert Counts(ys[k], uid) && ys[k].1.userId == v;
    LastKindOfSuffix(Visits(splits[..|splits| - 1]), ys, v, uid);
    LastKindOfSameSplit(ys, sp, v, uid);
  }

  // ------------------------------------------------- loading

  /** `Math.abs(debt.amount) > 0.01`. */
  predicate Significant(d: DebtSummary)
  {
    Abs(d.amount) > 0.01
  }

  /** The visits of one more split are the earlier visits followed by its own. */
  lemma VisitsPrefix(splits: seq<Split>, i: nat)
    requires i < |splits|
    ensures Visits(splits[..i + 1]) == Visits(splits[..i]) + VisitsOf(splits[i])
  {
    assert splits[..i + 1][..i] == splits[..i];
  }

  /** One more visit is one more step of the fold. */
  lemma FoldSnoc(xs: seq<Visit>, x: Visit, ctx: Context)
    ensures Fold(xs + [x], ctx) == Step(Fold(xs, ctx), x, ctx)
  {
    assert (xs + [x])[..|xs|] == xs;
  }

  /** The body of the inner loop: the share's counterparty gets a summary on first
      sight, then one more transaction, its amount and the split's direction. */
  method RecordShare(entries: seq<DebtSummary>, sp: Split, p: Share, ctx: Context) returns (r: seq<DebtSummary>)
    ensures r == Step(entries, (sp, p), ctx)
  {
    r := entries;
    if p.userId != ctx.uid && !p.settled {
      var kind := KindFor(sp, ctx.uid);
      var tx := TransactionFor((sp, p), ctx);
      var k := IndexOf(r, p.userId);
      if k == |r| {
        r := r + [DebtSummary(p.userId, UserName(ctx.friends, p.userId), UserEmail(ctx.friends, p.userId), 0.0, kind, [])];
        assert [] + [tx] == [tx];
      }
      r := r[k := r[k].(transactions := r[k].transactions + [tx])];
      r := r[k := r[k].(amount := r[k].amount + p.amount, kind := kind)];
    }
  }

  /** loadDebtData after the fetch: the nested loops build the debt map, and only
      the significant summaries are kept. */
  method LoadDebtData(splits: seq<Split>, ctx: Context) returns (debts: seq<DebtSummary>)
    ensures debts == Keep(Fold(Visits(splits), ctx), Significant)
    ensures NoDuplicates(Ids(debts))
    ensures forall i :: 0 <= i < |debts| ==>
      Significant(debts[i]) && Describes(debts[i], Visits(splits), ctx)
      && TransactionTotal(debts[i].transactions) == debts[i].amount
    ensures forall v :: Abs(DebtOf(Visits(splits), v, ctx.uid)) > 0.01 ==> v in Ids(debts)
  {
    var entries: seq<DebtSummary> := [];
    var i := 0;
    while i < |splits|
      invariant 0 <= i <= |splits|
      invariant entries == Fold(Visits(splits[..i]), ctx)
    {
      var sp := splits[i];
      var done := Visits(splits[..i]);
      var j := 0;
      assert done + VisitsOf(sp)[..0] == done;
      while j < |sp.participants|
        invariant 0 <= j <= |sp.participants|
        invariant entries == Fold(done + VisitsOf(sp)[..j], ctx)
      {
        var p := sp.participants[j];
        assert done + VisitsOf(sp)[..j + 1] == (done + VisitsOf(sp)[..j]) + [(sp, p)];
        FoldSnoc(done + VisitsOf(sp)[..j], (sp, p), ctx);
        entries := RecordShare(entries, sp, p, ctx);
        j := j + 1;
      }
      assert VisitsOf(sp)[..j] == VisitsOf(sp);
      VisitsPrefix(splits, i);
      i := i + 1;
    }
    assert splits[..i] == splits;
    debts := Keep(entries, Significant);
    DebtsFacts(splits, ctx);
  }

  lemma DebtsFacts(splits: seq<Split>, ctx: Context)
    ensures var debts := Keep(Fold(Visits(splits), ctx), Significant);
      NoDuplicates(Ids(debts))
      && (forall i :: 0 <= i < |debts| ==>
        Significant(debts[i]) && Describes(debts[i], Visits(splits), ctx)
        && TransactionTotal(debts[i].transactions) == debts[i].amount)
      && forall v :: Abs(DebtOf(Visits(splits), v, ctx.uid)) > 0.01 ==> v in Ids(debts)
  {
    var xs := Visits(splits);
    var all := Fold(xs, ctx);
    var debts := Keep(all, Significant);
    FoldCorrect(xs, ctx);
    KeepAll(all, Significant);
    KeepIdsDistinct(all, Significant);
    forall i | 0 <= i < |debts|
      ensures Describes(debts[i], xs, ctx) && TransactionTotal(debts[i].transactions) == debts[i].amount
    {
      KeepMembers(all, Significant, debts[i]);
      TransactionsSumToDebt(xs, debts[i].userId, ctx);
    }
    forall v | Abs(DebtOf(xs, v, ctx.uid)) > 0.01 ensures v in Ids(debts) {
      assert v in Ids(all);
      var i :| 0 <= i < |all| && Ids(all)[i] == v;
      KeepMembers(all, Significant, all[i]);
      var j :| 0 <= j < |debts| && debts[j] == all[i];
      assert Ids(debts)[j] == v;
    }
  }

  lemma {:induction false} KeepIdsDistinct(ds: seq<DebtSummary>, p: DebtSummary -> bool)
    requires NoDuplicates(Ids(ds))
    ensures NoDuplicates(Ids(Keep(ds, p)))
    decreases |ds|
  {
    if ds != [] {
      var tail := ds[1..];
      forall i, j | 0 <= i < j < |tail| ensures Ids(tail)[i] != Ids(tail)[j] {
        assert Ids(ds)[i + 1] == Ids(tail)[i] && Ids(ds)[j + 1] == Ids(tail)[j];
      }
      KeepIdsDistinct(tail, p);
      if p(ds[0]) {
        assert Keep(ds, p) == [ds[0]] + Keep(tail, p);
        HeadIdFresh(ds, p);
        ConsIdsDistinct(ds[0], Keep(tail, p));
      } else {
        assert Keep(ds, p) == Keep(tail, p);
      }
    }
  }

  /** The first summary's id occurs nowhere in the kept rest. */
  lemma HeadIdFresh(ds: seq<DebtSummary>, p: DebtSummary -> bool)
    requires ds != [] && NoDuplicates(Ids(ds))
    ensures forall d :: d in Keep(ds[1..], p) ==> d.userId != ds[0].userId
  {
    forall d | d in Keep(ds[1..], p) ensures d.userId != ds[0].userId {
      KeepMembers(ds[1..], p, d);
      var i :| 0 <= i < |ds[1..]| && ds[1..][i] == d;
      assert Ids(ds)[i + 1] == d.userId && Ids(ds)[0] == ds[0].userId;
    }
  }

  lemma ConsIdsDistinct(d: DebtSummary, rest: seq<DebtSummary>)
    requires NoDuplicates(Ids(rest))
    requires forall e :: e in rest ==> e.userId != d.userId
    ensures NoDuplicates(Ids([d] + rest))
  {
    var r := [d] + rest;
    forall i, j | 0 <= i < j < |r| ensures Ids(r)[i] != Ids(r)[j] {
      if i == 0 {
        assert r[j] == rest[j - 1];
      } else {
        assert Ids(r)[i] == Ids(rest)[i - 1] && Ids(r)[j] == Ids(rest)[j - 1];
      }
    }
  }

  // ------------------------------------------------- totals

  function DebtTotal(ds: seq<DebtSummary>): real
  {
    if ds == [] then 0.0 else ds[0].amount + DebtTotal(ds[1..])
  }

  predicate IsOwesYou(d: DebtSummary)
  {
    d.kind == OwesYou
  }

  predicate IsYouOwe(d: DebtSummary)
  {
    d.kind == YouOwe
  }

  function TotalOwedToYou(ds: seq<DebtSummary>): real
  {
    DebtTotal(Keep(ds, IsOwesYou))
  }

  function TotalYouOwe(ds: seq<DebtSummary>): real
  {
    DebtTotal(Keep(ds, IsYouOwe))
  }

  function NetBalance(ds: seq<DebtSummary>): real
  {
    TotalOwedToYou(ds) - TotalYouOwe(ds)
  }

  /** Each summary counted with its direction's sign. */
  function SignedTotal(ds: seq<DebtSummary>): real
  {
    if ds == [] then 0.0
    else (if ds[0].kind == OwesYou then ds[0].amount else -ds[0].amount) + SignedTotal(ds[1..])
  }

  /** The net balance counts every summary once, with the sign of its direction;
      the two totals together are the sum of all summaries. */
  lemma {:induction false} NetBalanceIsSignedTotal(ds: seq<DebtSummary>)
    ensures NetBalance(ds) == SignedTotal(ds)
    ensures TotalOwedToYou(ds) + TotalYouOwe(ds) == DebtTotal(ds)
    decreases |ds|
  {
    if ds != [] {
      NetBalanceIsSignedTotal(ds[1..]);
      var d := ds[0];
      var o := Keep(ds[1..], IsOwesYou);
      var y := Keep(ds[1..], IsYouOwe);
      if d.kind == OwesYou {
        assert Keep(ds, IsOwesYou) == [d] + o && ([d] + o)[1..] == o;
        assert Keep(ds, IsYouOwe) == y;
      } else {
        assert Keep(ds, IsYouOwe) == [d] + y && ([d] + y)[1..] == y;
        assert Keep(ds, IsOwesYou) == o;
      }
    }
  }
}
