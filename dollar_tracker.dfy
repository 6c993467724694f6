/**
 script2.js: the dollar page. The same state and handlers as script.js; its
 suggestion rules compare the category total with the share directly, with
 no truthiness test, and its tips have shorter texts.
 */
module DollarTracker {
  import opened Ledger
  import opened TableOrder
  import opened Advice
  import opened Charts

  /** What one render pass shows: the table rows, the total and the tips. */
  datatype View = View(rows: seq<Expense>, total: int, tips: seq<Tip>)

  /** `view` is what the page shows for `es`: the rows in stable newest-first
      order, the reduce total, and the tips of the unguarded rules. */
  ghost predicate Shows(view: View, es: seq<Expense>)
  {
    && NewestFirst(view.rows)
    && multiset(view.rows) == multiset(es)
    && (forall d :: OnDate(view.rows, d) == OnDate(es, d))
    && view.total == Total(es)
    && SuggestionList(view.tips, PlainFires(Entertainment, es), PlainFires(Food, es), PlainFires(Shopping, es))
  }

  /** `categoryTotals[c] > totalExpenses * share` on the dictionary; a missing
      key reads as `undefined`, and `undefined > x` is false. */
  function Fires(categoryTotals: Totals, totalExpenses: int, r: Rule): (b: bool)
    ensures b <==> var c := Category(r);
      && c in categoryTotals.sums
      && (categoryTotals.sums[c] as real) > (totalExpenses as real) * Share(r)
  {
    var c := Category(r);
    c in categoryTotals.sums && Exceeds(r, categoryTotals.sums[c], totalExpenses)
  }

  /** Evaluated on the dictionary the loop builds and the total of its
      values, each comparison fires exactly when the rule holds of the expenses. */
  lemma FiresMatchesLedger(es: seq<Expense>, r: Rule)
    ensures TotalsOf(es).Valid()
    ensures Fires(TotalsOf(es), SumSeq(TotalsOf(es).Values()), r) <==> PlainFires(r, es)
  {
    TotalsPartitionTotal(es);
  }

  /** The text this page shows for each tip. */
  function Message(t: Tip): string
  {
    match t
    case CutEntertainment => "Consider reducing entertainment expenses."
    case PlanMeals => "Try cooking at home to save on food."
    case DelayPurchases => "Avoid impulse buys. Delay non-essentials."
    case ReviewSubscriptions => "Review and cancel unused subscriptions."
    case SetBudget => "Set monthly budgets and track goals."
  }

  /** Each tip has its own text, so the shown texts determine the tips. */
  lemma MessagesDistinct(s: Tip, t: Tip)
    requires Message(s) == Message(t)
    ensures s == t
  {
    assert Message(s)[0] == Message(t)[0];
  }

  class App {
    var expenses: seq<Expense>
    const chart: ChartSlot

    ghost predicate Valid()
      reads this, chart
    {
      chart.Valid()
    }

    /** Page load: `expenses` as read back from local storage (or `[]`), no chart yet. */
    constructor (stored: seq<Expense>)
      ensures Valid() && fresh(chart)
      ensures expenses == stored && chart.current == None
    {
      expenses := stored;
      chart := new ChartSlot();
    }

    /** The submit handler: push one record at the end, then re-render. */
    method Submit(amount: int, category: string, description: string, date: int) returns (view: View)
      requires Valid()
      modifies this, chart
      ensures Valid()
      ensures expenses == old(expenses) + [Expense(amount, category, description, date)]
      ensures Shows(view, expenses)
      ensures chart.current == Some(Instance(old(chart.created), PieFor(TotalsOf(expenses))))
      ensures chart.live == {old(chart.created)} && chart.created == old(chart.created) + 1
    {
      expenses := expenses + [Expense(amount, category, description, date)];
      view := Render();
    }

    /** The `DOMContentLoaded` handler, and what the submit handler does after the push. */
    method Render() returns (view: View)
      requires Valid()
      modifies chart
      ensures Valid()
      ensures Shows(view, expenses)
      ensures chart.current == Some(Instance(old(chart.created), PieFor(TotalsOf(expenses))))
      ensures chart.live == {old(chart.created)} && chart.created == old(chart.created) + 1
    {
      var rows := UpdateExpenseTable();
      UpdateChart();
      var total := Total(expenses);  // updateTotalExpenses
      var tips := GenerateSuggestions();
      view := View(rows, total, tips);
    }

    /** `updateExpenseTable`: the rows are a sorted copy; `expenses` keeps its order. */
    method UpdateExpenseTable() returns (rows: seq<Expense>)
      ensures NewestFirst(rows)
      ensures multiset(rows) == multiset(expenses)
      ensures forall d :: OnDate(rows, d) == OnDate(expenses, d)
    {
      rows := SortNewestFirst(expenses);
    }

    /** `updateChart`: destroy the old chart, store a pie of the category totals. */
    method UpdateChart()
      requires Valid()
      modifies chart
      ensures Valid()
      ensures chart.current == Some(Instance(old(chart.created), PieFor(TotalsOf(expenses))))
      ensures chart.live == {old(chart.created)} && chart.created == old(chart.created) + 1
      ensures old(chart.current).Some? ==> old(chart.current).value.id !in chart.live
    {
      Charts.UpdateChart(expenses, chart);
    }

    /** `generateSuggestions`: the conditional tips that fire, in rule order,
        then the two general tips. */
    method GenerateSuggestions() returns (tips: seq<Tip>)
      ensures SuggestionList(tips, PlainFires(Entertainment, expenses), PlainFires(Food, expenses), PlainFires(Shopping, expenses))
    {
      var categoryTotals := GroupByCategory(expenses);
      var totalExpenses := SumSeq(categoryTotals.Values());
      FiresMatchesLedger(expenses, Entertainment);
      FiresMatchesLedger(expenses, Food);
      FiresMatchesLedger(expenses, Shopping);
      var ent := Fires(categoryTotals, totalExpenses, Entertainment);
      var food := Fires(categoryTotals, totalExpenses, Food);
      var shop := Fires(categoryTotals, totalExpenses, Shopping);
      tips := Suggestions(ent, food, shop);
    }
  }
}
