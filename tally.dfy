/** Sums over expense and income lists, and category totals: the dictionary that
    `forEach(e => totals[e.category] = (totals[e.category] || 0) + e.amount)`
    builds, kept as a list of (category, amount) pairs in first-seen order, which
    is the order `Object.entries` returns for these non-numeric keys. */
module Tally {
  import opened Base
  import opened Types

  /** `reduce((sum, e) => sum + e.amount, 0)` over expenses. */
  function SumExpenses(es: seq<Expense>): real
  {
    if es == [] then 0.0 else SumExpenses(es[..|es| - 1]) + es[|es| - 1].amount
  }

  /** `reduce((sum, i) => sum + i.amount, 0)` over income. */
  function SumIncome(xs: seq<Income>): real
  {
    if xs == [] then 0.0 else SumIncome(xs[..|xs| - 1]) + xs[|xs| - 1].amount
  }

  /** The total of the expenses of one category. */
  function CategorySum(es: seq<Expense>, c: string): real
  {
    if es == [] then 0.0
    else CategorySum(es[..|es| - 1], c) + (if es[|es| - 1].category == c then es[|es| - 1].amount else 0.0)
  }

  /** The keys of the dictionary, in order (`Object.keys`). */
  function Categories(ts: seq<CategoryAmount>): (r: seq<string>)
    ensures |r| == |ts|
  {
    if ts == [] then [] else [ts[0].category] + Categories(ts[1..])
  }

  lemma {:induction false} CategoriesIndex(ts: seq<CategoryAmount>, i: nat)
    requires i < |ts|
    ensures Categories(ts)[i] == ts[i].category
    decreases i
  {
    if i > 0 {
      CategoriesIndex(ts[1..], i - 1);
    }
  }

  /** `totals[c] || 0`. */
  function Lookup(ts: seq<CategoryAmount>, c: string): real
  {
    if ts == [] then 0.0 else if ts[0].category == c then ts[0].amount else Lookup(ts[1..], c)
  }

  function SumTotals(ts: seq<CategoryAmount>): real
  {
    if ts == [] then 0.0 else ts[0].amount + SumTotals(ts[1..])
  }

  /** `totals[c] = (totals[c] || 0) + a`: an existing entry grows in place, a new
      category is appended. */
  function AddTo(ts: seq<CategoryAmount>, c: string, a: real): (r: seq<CategoryAmount>)
    ensures |r| == if c in Categories(ts) then |ts| else |ts| + 1
  {
    if ts == [] then [CategoryAmount(c, a)]
    else if ts[0].category == c then [CategoryAmount(c, ts[0].amount + a)] + ts[1..]
    else
      assert Categories(ts[1..]) == Categories(ts)[1..];
      [ts[0]] + AddTo(ts[1..], c, a)
  }

  /** The category totals after the given expenses, in first-seen order. */
  function CategoryTotals(es: seq<Expense>): seq<CategoryAmount>
  {
    if es == [] then [] else AddTo(CategoryTotals(es[..|es| - 1]), es[|es| - 1].category, es[|es| - 1].amount)
  }

  /** The categories after an addition: unchanged when the category is already
      there, otherwise extended by it at the end. */
  lemma {:induction false} AddToCategories(ts: seq<CategoryAmount>, c: string, a: real)
    ensures Categories(AddTo(ts, c, a)) == if c in Categories(ts) then Categories(ts) else Categories(ts) + [c]
    decreases |ts|
  {
    var r := AddTo(ts, c, a);
    if ts == [] {
      assert Categories(r) == [c];
    } else {
      var tail := ts[1..];
      assert Categories(tail) == Categories(ts)[1..];
      assert Categories(ts) == [ts[0].category] + Categories(tail);
      if ts[0].category == c {
        assert r[1..] == tail;
        assert Categories(r) == Categories(ts);
      } else {
        AddToCategories(tail, c, a);
        var rt := AddTo(tail, c, a);
        assert r == [ts[0]] + rt && r[1..] == rt;
        assert Categories(r) == [ts[0].category] + Categories(rt);
      }
    }
  }

  /** An addition grows exactly the total of its own category. */
  lemma {:induction false} AddToLookup(ts: seq<CategoryAmount>, c: string, a: real, d: string)
    ensures Lookup(AddTo(ts, c, a), d) == Lookup(ts, d) + (if d == c then a else 0.0)
    decreases |ts|
  {
    if ts != [] && ts[0].category != c {
      var r := AddTo(ts, c, a);
      assert r[0] == ts[0] && r[1..] == AddTo(ts[1..], c, a);
      AddToLookup(ts[1..], c, a, d);
    }
  }

  /** An addition grows the sum of all totals by its amount. */
  lemma {:induction false} AddToSum(ts: seq<CategoryAmount>, c: string, a: real)
    ensures SumTotals(AddTo(ts, c, a)) == SumTotals(ts) + a
    decreases |ts|
  {
    if ts != [] {
      var r := AddTo(ts, c, a);
      if ts[0].category == c {
        assert r[1..] == ts[1..];
      } else {
        assert r[0] == ts[0] && r[1..] == AddTo(ts[1..], c, a);
        AddToSum(ts[1..], c, a);
      }
    }
  }

  lemma AddToFacts(ts: seq<CategoryAmount>, c: string, a: real)
    requires NoDuplicates(Categories(ts))
    ensures NoDuplicates(Categories(AddTo(ts, c, a)))
    ensures forall d :: d in Categories(AddTo(ts, c, a)) <==> d in Categories(ts) || d == c
    ensures forall d :: Lookup(AddTo(ts, c, a), d) == Lookup(ts, d) + (if d == c then a else 0.0)
    ensures SumTotals(AddTo(ts, c, a)) == SumTotals(ts) + a
    ensures Categories(ts) <= Categories(AddTo(ts, c, a)) || c in Categories(ts)
  {
    AddToCategories(ts, c, a);
    forall d ensures Lookup(AddTo(ts, c, a), d) == Lookup(ts, d) + (if d == c then a else 0.0) {
      AddToLookup(ts, c, a, d);
    }
    AddToSum(ts, c, a);
  }

  lemma {:induction false} AbsentLookup(ts: seq<CategoryAmount>, c: string)
    requires c !in Categories(ts)
    ensures Lookup(ts, c) == 0.0
    decreases |ts|
  {
    if ts != [] {
      assert Categories(ts[1..]) == Categories(ts)[1..];
      assert Categories(ts)[0] == ts[0].category;
      AbsentLookup(ts[1..], c);
    }
  }

  /** The categories of the totals are the categories the expenses use, each once. */
  lemma {:induction false} CategoryTotalsKeys(es: seq<Expense>)
    ensures NoDuplicates(Categories(CategoryTotals(es)))
    ensures forall c :: c in Categories(CategoryTotals(es)) <==> exists i :: 0 <= i < |es| && es[i].category == c
    decreases |es|
  {
    if es != [] {
      var init := es[..|es| - 1];
      var last := es[|es| - 1];
      CategoryTotalsKeys(init);
      AddToCategories(CategoryTotals(init), last.category, last.amount);
      forall c ensures c in Categories(CategoryTotals(es)) <==> exists i :: 0 <= i < |es| && es[i].category == c {
        if c in Categories(CategoryTotals(es)) && c != last.category {
          var i :| 0 <= i < |init| && init[i].category == c;
          assert es[i].category == c;
        }
        if (exists i :: 0 <= i < |es| && es[i].category == c) && c != last.category {
          var i :| 0 <= i < |es| && es[i].category == c;
          assert i < |init| && init[i].category == c;
        }
      }
    }
  }

  /** Each total is the sum of its category's amounts, and the totals add up to the
      sum of all amounts. */
  lemma {:induction false} CategoryTotalsSums(es: seq<Expense>)
    ensures forall c :: Lookup(CategoryTotals(es), c) == CategorySum(es, c)
    ensures SumTotals(CategoryTotals(es)) == SumExpenses(es)
    decreases |es|
  {
    if es != [] {
      var init := es[..|es| - 1];
      var last := es[|es| - 1];
      CategoryTotalsSums(init);
      forall c ensures Lookup(CategoryTotals(es), c) == CategorySum(es, c) {
        AddToLookup(CategoryTotals(init), last.category, last.amount, c);
      }
      AddToSum(CategoryTotals(init), last.category, last.amount);
    }
  }

  /** The category totals list each category of the expenses once, in first-seen
      order; each holds the sum of that category's amounts, and together they add
      up to the sum of all amounts. */
  lemma CategoryTotalsCorrect(es: seq<Expense>)
    ensures NoDuplicates(Categories(CategoryTotals(es)))
    ensures forall c :: c in Categories(CategoryTotals(es)) <==> exists i :: 0 <= i < |es| && es[i].category == c
    ensures forall c :: Lookup(CategoryTotals(es), c) == CategorySum(es, c)
    ensures SumTotals(CategoryTotals(es)) == SumExpenses(es)
  {
    CategoryTotalsKeys(es);
    CategoryTotalsSums(es);
  }

  /** Every recorded amount is a category total of the expenses. */
  lemma EntryIsCategorySum(es: seq<Expense>, k: nat)
    requires k < |CategoryTotals(es)|
    ensures CategoryTotals(es)[k].amount == CategorySum(es, CategoryTotals(es)[k].category)
  {
    CategoryTotalsCorrect(es);
    LookupDistinct(CategoryTotals(es), k);
  }

  lemma {:induction false} LookupDistinct(ts: seq<CategoryAmount>, k: nat)
    requires NoDuplicates(Categories(ts)) && k < |ts|
    ensures Lookup(ts, ts[k].category) == ts[k].amount
    decreases |ts|
  {
    if k > 0 {
      assert Categories(ts[1..]) == Categories(ts)[1..];
      CategoriesIndex(ts, k);
      assert Categories(ts)[0] != Categories(ts)[k];
      LookupDistinct(ts[1..], k - 1);
    }
  }

  /** The sum over two joined lists is the sum of their sums. */
  lemma {:induction false} SumExpensesAppend(a: seq<Expense>, b: seq<Expense>)
    ensures SumExpenses(a + b) == SumExpenses(a) + SumExpenses(b)
    decreases |b|
  {
    if b == [] {
      assert a + b == a;
    } else {
      var ab := a + b;
      assert ab[..|ab| - 1] == a + b[..|b| - 1];
      assert ab[|ab| - 1] == b[|b| - 1];
      SumExpensesAppend(a, b[..|b| - 1]);
    }
  }
}
