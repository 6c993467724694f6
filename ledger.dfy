/**
 The expense ledger shared by script.js, script2.js and chart.js: the expense
 record, the reference sums over a list of expenses, the `categoryTotals`
 dictionary (a JavaScript object, so its keys keep insertion order) and the
 `forEach` loop that fills it.
 */
module Ledger {

  /** One record as the submit handler builds it. `amount` is in minor
      currency units; `date` is a day key ordered like the `YYYY-MM-DD`
      string that a date input produces. */
  datatype Expense = Expense(amount: int, category: string, description: string, date: int)

  /** `expenses.reduce((sum, expense) => sum + expense.amount, 0)`: a left fold. */
  function Total(es: seq<Expense>): int
  {
    if es == [] then 0 else Total(es[..|es| - 1]) + es[|es| - 1].amount
  }

  /** The sum of the amounts of the expenses whose category is `c`. */
  function CategorySum(es: seq<Expense>, c: string): int
  {
    if es == [] then 0
    else CategorySum(es[..|es| - 1], c) + (if es[|es| - 1].category == c then es[|es| - 1].amount else 0)
  }

  /** Some expense of `es` has category `c`. */
  predicate HasCategory(es: seq<Expense>, c: string)
  {
    exists i :: 0 <= i < |es| && es[i].category == c
  }

  predicate Distinct(s: seq<string>)
  {
    forall i, j :: 0 <= i < j < |s| ==> s[i] != s[j]
  }

  /** `xs.reduce((sum, x) => sum + x, 0)` over plain numbers. */
  function SumSeq(xs: seq<int>): int
  {
    if xs == [] then 0 else SumSeq(xs[..|xs| - 1]) + xs[|xs| - 1]
  }

  lemma {:induction false} HasCategorySnoc(es: seq<Expense>, e: Expense)
    ensures forall c :: HasCategory(es + [e], c) <==> HasCategory(es, c) || e.category == c
  {
    var s := es + [e];
    forall c ensures HasCategory(s, c) <==> HasCategory(es, c) || e.category == c {
      if HasCategory(s, c) && !HasCategory(es, c) {
        var i :| 0 <= i < |s| && s[i].category == c;
        assert i == |es|;
      }
      if HasCategory(es, c) {
        var i :| 0 <= i < |es| && es[i].category == c;
        assert s[i] == es[i];
      }
      if e.category == c {
        assert s[|es|] == e;
      }
    }
  }

  /** The distinct categories of `es` in order of first appearance: the keys
      that the aggregation loop creates, in creation order. */
  function Categories(es: seq<Expense>): (r: seq<string>)
    ensures Distinct(r)
    ensures forall c :: c in r <==> HasCategory(es, c)
  {
    if es == [] then []
    else
      var init := Categories(es[..|es| - 1]);
      var c := es[|es| - 1].category;
      assert es == es[..|es| - 1] + [es[|es| - 1]];
      HasCategorySnoc(es[..|es| - 1], es[|es| - 1]);
      if c in init then init else init + [c]
  }

  /** A JavaScript object used as a dictionary from category to amount:
      `keys` is what `Object.keys` returns (insertion order), `sums` the values. */
  datatype Totals = Totals(keys: seq<string>, sums: map<string, int>)
  {
    ghost predicate Valid()
    {
      Distinct(keys) && forall k :: k in sums <==> k in keys
    }

    /** `!obj[k]` is false exactly for a present, non-zero value. */
    predicate Truthy(k: string)
    {
      k in sums && sums[k] != 0
    }

    /** `obj[k] = v`: a new key goes last in key order, an existing key keeps its place. */
    function Set(k: string, v: int): (t: Totals)
      ensures Valid() ==> t.Valid()
      ensures t.sums == sums[k := v]
      ensures k in sums ==> t.keys == keys
      ensures k !in sums ==> t.keys == keys + [k]
    {
      Totals(if k in sums then keys else keys + [k], sums[k := v])
    }

    /** `Object.values(obj)`: the values in key order. */
    function Values(): (vs: seq<int>)
      requires forall k :: k in keys ==> k in sums
      ensures |vs| == |keys|
      ensures forall i :: 0 <= i < |keys| ==> vs[i] == sums[keys[i]]
    {
      seq(|keys|, i requires 0 <= i < |keys| => sums[keys[i]])
    }
  }

  /** The dictionary the aggregation loop must produce for `es`. */
  function TotalsOf(es: seq<Expense>): Totals
  {
    var ks := Categories(es);
    Totals(ks, SumsFor(ks, es))
  }

  /** Each key of `ks` mapped to its category sum over `es`. */
  function SumsFor(ks: seq<string>, es: seq<Expense>): map<string, int>
  {
    map c | c in ks :: CategorySum(es, c)
  }

  /** The `forEach` loop of `updateChart` and `generateSuggestions`: for each
      expense, reset a missing or falsy entry to 0, then add the amount. */
  method GroupByCategory(expenses: seq<Expense>) returns (totals: Totals)
    ensures totals.Valid()
    ensures totals.keys == Categories(expenses)
    ensures forall c :: c in totals.sums <==> HasCategory(expenses, c)
    ensures forall c :: c in totals.sums ==> totals.sums[c] == CategorySum(expenses, c)
    ensures totals == TotalsOf(expenses)
  {
    totals := Totals([], map[]);
    var i := 0;
    while i < |expenses|
      invariant 0 <= i <= |expenses|
      invariant totals.Valid()
      invariant totals.keys == Categories(expenses[..i])
      invariant forall c :: c in totals.sums ==> totals.sums[c] == CategorySum(expenses[..i], c)
      invariant forall c :: c !in totals.sums ==> CategorySum(expenses[..i], c) == 0
    {
      var e := expenses[i];
      assert expenses[..i + 1][..i] == expenses[..i];
      if !totals.Truthy(e.category) {
        totals := totals.Set(e.category, 0);
      }
      totals := totals.Set(e.category, totals.sums[e.category] + e.amount);
      i := i + 1;
    }
    assert expenses[..i] == expenses;
    assert totals.sums == TotalsOf(expenses).sums;
  }

  lemma {:induction false} TotalConcat(a: seq<Expense>, b: seq<Expense>)
    ensures Total(a + b) == Total(a) + Total(b)
    decreases |b|
  {
    if b != [] {
      var b' := b[..|b| - 1];
      assert (a + b)[..|a + b| - 1] == a + b';
      TotalConcat(a, b');
    } else {
      assert a + b == a;
    }
  }

  /** The reduce total does not depend on the order of the expenses. */
  lemma {:induction false} TotalPermutation(a: seq<Expense>, b: seq<Expense>)
    requires multiset(a) == multiset(b)
    ensures Total(a) == Total(b)
    decreases |a|
  {
    if a == [] {
      assert |b| == |multiset(b)| == 0;
    } else {
      var x := a[|a| - 1];
      var a' := a[..|a| - 1];
      assert a == a' + [x];
      assert x in multiset(b);
      var i :| 0 <= i < |b| && b[i] == x;
      var b' := b[..i] + b[i + 1..];
      assert b == b[..i] + [x] + b[i + 1..];
      assert multiset(b) == multiset(b[..i]) + multiset{x} + multiset(b[i + 1..]);
      assert multiset(a) == multiset(a') + multiset{x};
      assert multiset(b') == multiset(b[..i]) + multiset(b[i + 1..]);
      assert multiset(a') == multiset(a) - multiset{x};
      assert multiset(b') == multiset(b) - multiset{x};
      TotalPermutation(a', b');
      TotalConcat(b[..i] + [x], b[i + 1..]);
      TotalConcat(b[..i], [x]);
      TotalConcat(b[..i], b[i + 1..]);
      assert Total([x]) == x.amount by { assert [x][..0] == []; }
    }
  }

  /** Sums of categories that never occur are 0. */
  lemma {:induction false} CategorySumAbsent(es: seq<Expense>, c: string)
    requires !HasCategory(es, c)
    ensures CategorySum(es, c) == 0
  {
    if es != [] {
      assert es == es[..|es| - 1] + [es[|es| - 1]];
      HasCategorySnoc(es[..|es| - 1], es[|es| - 1]);
      CategorySumAbsent(es[..|es| - 1], c);
    }
  }

  /** The sum of `CategorySum(es, k)` over the keys `ks`. */
  function KeySum(ks: seq<string>, es: seq<Expense>): int
  {
    if ks == [] then 0 else KeySum(ks[..|ks| - 1], es) + CategorySum(es, ks[|ks| - 1])
  }

  lemma {:induction false} KeySumSnoc(ks: seq<string>, es: seq<Expense>, e: Expense)
    requires Distinct(ks)
    ensures KeySum(ks, es + [e]) == KeySum(ks, es) + (if e.category in ks then e.amount else 0)
  {
    if ks != [] {
      var ks' := ks[..|ks| - 1];
      assert ks == ks' + [ks[|ks| - 1]];
      assert (es + [e])[..|es + [e]| - 1] == es;
      KeySumSnoc(ks', es, e);
    }
  }

  lemma {:induction false} KeySumValues(ks: seq<string>, es: seq<Expense>)
    ensures SumSeq(Totals(ks, SumsFor(ks, es)).Values()) == KeySum(ks, es)
  {
    if ks != [] {
      var ks' := ks[..|ks| - 1];
      var vs := Totals(ks, SumsFor(ks, es)).Values();
      var vs' := Totals(ks', SumsFor(ks', es)).Values();
      assert vs[..|vs| - 1] == vs';
      KeySumValues(ks', es);
    }
  }

  lemma {:induction false} KeySumCategories(es: seq<Expense>)
    ensures KeySum(Categories(es), es) == Total(es)
  {
    if es != [] {
      var init := es[..|es| - 1];
      var e := es[|es| - 1];
      assert es == init + [e];
      var ks := Categories(init);
      KeySumCategories(init);
      KeySumSnoc(ks, init, e);
      if e.category !in ks {
        var ks' := ks + [e.category];
        assert ks'[..|ks'| - 1] == ks;
        assert !HasCategory(init, e.category);
        CategorySumAbsent(init, e.category);
      }
    }
  }

  /** The category totals partition the grand total: summing the values of
      the dictionary gives the same number as the reduce over the expenses. */
  lemma {:induction false} TotalsPartitionTotal(es: seq<Expense>)
    ensures SumSeq(TotalsOf(es).Values()) == Total(es)
  {
    KeySumValues(Categories(es), es);
    KeySumCategories(es);
  }

  /** With non-negative amounts the grand total is non-negative. */
  lemma {:induction false} TotalNonNegative(es: seq<Expense>)
    requires forall i :: 0 <= i < |es| ==> es[i].amount >= 0
    ensures Total(es) >= 0
  {
    if es != [] { TotalNonNegative(es[..|es| - 1]); }
  }

  /** Appending one expense: earlier categories keep their order and places. */
  lemma {:induction false} CategoriesSnoc(es: seq<Expense>, e: Expense)
    ensures Categories(es + [e]) == if e.category in Categories(es) then Categories(es) else Categories(es) + [e.category]
  {
    assert (es + [e])[..|es + [e]| - 1] == es;
  }

  /** The categories of a prefix are a prefix of the categories: every label
      keeps its slot as later expenses arrive (first-appearance order). */
  lemma {:induction false} CategoriesPrefix(es: seq<Expense>, k: nat)
    requires k <= |es|
    ensures Categories(es[..k]) <= Categories(es)
    decreases |es| - k
  {
    if k < |es| {
      CategoriesPrefix(es, k + 1);
      assert es[..k + 1] == es[..k] + [es[k]];
      CategoriesSnoc(es[..k], es[k]);
    } else {
      assert es[..k] == es;
    }
  }
}
