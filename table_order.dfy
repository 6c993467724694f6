/**
 The order of the expense table: `[...expenses].sort((a, b) => new Date(b.date)
 - new Date(a.date))`. The sort works on a copy, orders newest first and, as
 section 22.1.3.27 of ECMA-262 (10th edition) requires of `Array.prototype.sort`,
 is stable: expenses with the same date keep their relative order.
 */
module TableOrder {
  import opened Ledger

  /** Dates never increase from one row to the next. */
  predicate NewestFirst(s: seq<Expense>)
  {
    forall i, j :: 0 <= i < j < |s| ==> s[i].date >= s[j].date
  }

  /** The subsequence of `s` dated `d`, in the order of `s`. */
  function OnDate(s: seq<Expense>, d: int): seq<Expense>
  {
    if s == [] then []
    else OnDate(s[..|s| - 1], d) + (if s[|s| - 1].date == d then [s[|s| - 1]] else [])
  }

  lemma {:induction false} OnDateConcat(a: seq<Expense>, b: seq<Expense>, d: int)
    ensures OnDate(a + b, d) == OnDate(a, d) + OnDate(b, d)
    decreases |b|
  {
    if b == [] {
      assert a + b == a;
    } else {
      assert (a + b)[..|a + b| - 1] == a + b[..|b| - 1];
      OnDateConcat(a, b[..|b| - 1], d);
    }
  }

  /** Places `x` after every row dated no earlier than `x`, so that among
      equal dates it comes last: the step of a stable insertion sort. */
  function Insert(s: seq<Expense>, x: Expense): seq<Expense>
  {
    if s == [] || s[|s| - 1].date >= x.date then s + [x]
    else Insert(s[..|s| - 1], x) + [s[|s| - 1]]
  }

  lemma {:induction false} InsertPermutes(s: seq<Expense>, x: Expense)
    ensures multiset(Insert(s, x)) == multiset(s) + multiset{x}
  {
    if !(s == [] || s[|s| - 1].date >= x.date) {
      var init, last := s[..|s| - 1], s[|s| - 1];
      assert s == init + [last];
      InsertPermutes(init, x);
    }
  }

  lemma {:induction false} InsertNewestFirst(s: seq<Expense>, x: Expense)
    requires NewestFirst(s)
    ensures NewestFirst(Insert(s, x))
  {
    if !(s == [] || s[|s| - 1].date >= x.date) {
      var init, last := s[..|s| - 1], s[|s| - 1];
      assert s == init + [last];
      var r := Insert(init, x);
      InsertNewestFirst(init, x);
      InsertPermutes(init, x);
      forall i | 0 <= i < |r| ensures r[i].date >= last.date {
        assert r[i] in multiset(r);
        if r[i] != x {
          assert r[i] in multiset(init);
          var k :| 0 <= k < |init| && init[k] == r[i];
          assert s[k] == init[k];
        }
      }
    }
  }

  /** Inserting `x` adds it last among the rows dated `x.date` and leaves the
      rows of every other date as they were. */
  lemma {:induction false} InsertOnDate(s: seq<Expense>, x: Expense, d: int)
    ensures OnDate(Insert(s, x), d) == OnDate(s, d) + (if x.date == d then [x] else [])
  {
    if s == [] || s[|s| - 1].date >= x.date {
      assert Insert(s, x) == s + [x];
      assert (s + [x])[..|s|] == s;
    } else {
      var init, last := s[..|s| - 1], s[|s| - 1];
      var tail := if x.date == d then [x] else [];
      var lastTail := if last.date == d then [last] else [];
      var r' := Insert(init, x);
      assert Insert(s, x) == r' + [last];
      InsertOnDate(init, x, d);
      assert OnDate(r', d) == OnDate(init, d) + tail;
      assert (r' + [last])[..|r'|] == r';
      assert OnDate(r' + [last], d) == OnDate(r', d) + lastTail;
      assert OnDate(s, d) == OnDate(init, d) + lastTail;
      assert tail == [] || lastTail == [];
    }
  }

  /** The table order of `es`: stable insertion sort, newest first. */
  function SortNewestFirst(es: seq<Expense>): (r: seq<Expense>)
    ensures NewestFirst(r)
    ensures multiset(r) == multiset(es)
    ensures forall d :: OnDate(r, d) == OnDate(es, d)
  {
    if es == [] then []
    else
      var init, last := es[..|es| - 1], es[|es| - 1];
      assert es == init + [last];
      var sorted := SortNewestFirst(init);
      InsertNewestFirst(sorted, last);
      InsertPermutes(sorted, last);
      assert forall d :: OnDate(Insert(sorted, last), d) == OnDate(es, d) by {
        forall d ensures OnDate(Insert(sorted, last), d) == OnDate(es, d) {
          InsertOnDate(sorted, last, d);
        }
      }
      Insert(sorted, last)
  }

  lemma {:induction false} OnDateHas(s: seq<Expense>, i: int)
    requires 0 <= i < |s|
    ensures OnDate(s, s[i].date) != []
  {
    if i < |s| - 1 {
      OnDateHas(s[..|s| - 1], i);
    }
  }

  /** A newest-first list is determined by its per-date subsequences: any
      stable newest-first sort of the same expenses yields the same rows. */
  lemma {:induction false} StableOrderUnique(a: seq<Expense>, b: seq<Expense>)
    requires NewestFirst(a) && NewestFirst(b)
    requires forall d :: OnDate(a, d) == OnDate(b, d)
    ensures a == b
    decreases |a| + |b|
  {
    if a == [] || b == [] {
      if a != [] { OnDateHas(a, 0); }
      if b != [] { OnDateHas(b, 0); }
    } else {
      OldestAgree(a, b);
      var a', b' := a[..|a| - 1], b[..|b| - 1];
      forall d ensures OnDate(a', d) == OnDate(b', d) {
        DropOldest(a, b, d);
      }
      StableOrderUnique(a', b');
      assert a == a' + [a[|a| - 1]] && b == b' + [b[|b| - 1]];
    }
  }

  /** Every date of a newest-first list is at least its last row's date. */
  lemma OldestLast(s: seq<Expense>, d: int)
    requires NewestFirst(s) && s != []
    requires OnDate(s, d) != []
    ensures d >= s[|s| - 1].date
  {
    OnDateWitness(s, d);
    var i :| 0 <= i < |s| && s[i].date == d;
    assert i == |s| - 1 || s[i].date >= s[|s| - 1].date;
  }

  /** Two newest-first lists with the same per-date rows end on the same row. */
  lemma OldestAgree(a: seq<Expense>, b: seq<Expense>)
    requires NewestFirst(a) && NewestFirst(b) && a != [] && b != []
    requires forall d :: OnDate(a, d) == OnDate(b, d)
    ensures a[|a| - 1] == b[|b| - 1]
  {
    var x, y := a[|a| - 1], b[|b| - 1];
    assert OnDate(a, y.date) == OnDate(b, y.date);
    assert OnDate(a, x.date) == OnDate(b, x.date);
    SameOldestDate(a, b);
    SameOldestRow(a, b);
  }

  lemma SameOldestDate(a: seq<Expense>, b: seq<Expense>)
    requires NewestFirst(a) && NewestFirst(b) && a != [] && b != []
    requires OnDate(a, b[|b| - 1].date) == OnDate(b, b[|b| - 1].date)
    requires OnDate(a, a[|a| - 1].date) == OnDate(b, a[|a| - 1].date)
    ensures a[|a| - 1].date == b[|b| - 1].date
  {
    OnDateHas(b, |b| - 1);
    OldestLast(a, b[|b| - 1].date);
    OnDateHas(a, |a| - 1);
    OldestLast(b, a[|a| - 1].date);
  }

  lemma SameOldestRow(a: seq<Expense>, b: seq<Expense>)
    requires a != [] && b != [] && a[|a| - 1].date == b[|b| - 1].date
    requires OnDate(a, a[|a| - 1].date) == OnDate(b, a[|a| - 1].date)
    ensures a[|a| - 1] == b[|b| - 1]
  {
    var x, y := a[|a| - 1], b[|b| - 1];
    var oa := OnDate(a, x.date);
    assert oa == OnDate(a[..|a| - 1], x.date) + [x];
    assert oa == OnDate(b[..|b| - 1], x.date) + [y];
    assert oa[|oa| - 1] == x;
  }

  lemma DropOldest(a: seq<Expense>, b: seq<Expense>, d: int)
    requires a != [] && b != [] && a[|a| - 1] == b[|b| - 1]
    requires OnDate(a, d) == OnDate(b, d)
    ensures OnDate(a[..|a| - 1], d) == OnDate(b[..|b| - 1], d)
  {
    var x := a[|a| - 1];
    if x.date == d {
      var o := OnDate(a, d);
      assert OnDate(a[..|a| - 1], d) == o[..|o| - 1];
      assert OnDate(b[..|b| - 1], d) == o[..|o| - 1];
    }
  }

  lemma {:induction false} OnDateWitness(s: seq<Expense>, d: int)
    requires OnDate(s, d) != []
    ensures exists i :: 0 <= i < |s| && s[i].date == d
  {
    if s[|s| - 1].date != d {
      OnDateWitness(s[..|s| - 1], d);
      var i :| 0 <= i < |s| - 1 && s[..|s| - 1][i].date == d;
      assert s[i].date == d;
    }
  }

  /** The sorted copy is exactly the stable newest-first order of the
      expenses: it has their rows, each date's rows in their original order. */
  lemma SortIsTheStableOrder(es: seq<Expense>, rows: seq<Expense>)
    requires NewestFirst(rows)
    requires forall d :: OnDate(rows, d) == OnDate(es, d)
    ensures rows == SortNewestFirst(es)
  {
    StableOrderUnique(rows, SortNewestFirst(es));
  }
}
