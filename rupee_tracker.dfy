/**
 script.js: the rupee page. Its module-level state, the `expenses` list and
 the `expenseChart` slot, is the state of `App`; the submit handler appends
 one record and re-renders the table, the chart, the total and the tips.
 Its suggestion rules test the category total for truthiness first.
 */
module RupeeTracker {
  import opened Ledger
  import opened TableOrder
  import opened Advice
  import opened Charts

  /** What one render pass shows: the table rows, the total and the tips. */
  datatype View = View(rows: seq<Expense>, total: int, tips: seq<Tip>)

  /** `view` is what the page shows for `es`: the rows in stable newest-first
      order, the reduce total, and the tips of the truthiness-guarded rules. */
  ghost predicate Shows(view: View, es: seq<Expense>)
  {
    && NewestFirst(view.rows)
    && multiset(view.rows) == multiset(es)
    && (forall d :: OnDate(view.rows, d) == OnDate(es, d))
    && view.total == Total(es)
    && SuggestionList(view.tips, GuardedFires(Entertainment, es), GuardedFires(Food, es), GuardedFires(Shopping, es))
  }

  /** `categoryTotals[c] && categoryTotals[c] > totalExpenses * share` on the dictionary. */
  function Fires(categoryTotals: Totals, totalExpenses: int, r: Rule): (b: bool)
    ensures b <==> var c := Category(r);
      && c in categoryTotals.sums && categoryTotals.sums[c] != 0
      && (categoryTotals.sums[c] as real) > (totalExpenses as real) * Share(r)
  {
    var c := Category(r);
    categoryTotals.Truthy(c) && Exceeds(r, categoryTotals.sums[c], totalExpenses)
  }

  /** Evaluated on the dictionary the loop builds and the total of its
      values, each guard fires exactly when the rule holds of the expenses. */
  lemma FiresMatchesLedger(es: seq<Expense>, r: Rule)
    ensures TotalsOf(es).Valid()
    ensures Fires(TotalsOf(es), SumSeq(TotalsOf(es).Values()), r) <==> GuardedFires(r, es)
  {
    TotalsPartitionTotal(es);
  }

  /** The text this page shows for each tip. */
  function Message(t: Tip): string
  {
    match t
    case CutEntertainment => "Consider reducing entertainment expenses. Look for free or low-cost alternatives for leisure activities."
    case PlanMeals => "Try meal planning and cooking at home more often to reduce food expenses."
    case DelayPurchases => "Consider implementing a 24-hour waiting period before making non-essential purchases."
    case ReviewSubscriptions => "Review your monthly subscriptions and cancel any that you don't use regularly."
    case SetBudget => "Set up a monthly budget and track your progress towards your financial goals."
  }

  class App {
    var expenses: seq<Expense>
    const chart: ChartSlot

    ghost predicate Valid()
      reads this, chart
    {
      chart.Valid()
    }

    /** Page load: `expenses` as read back from local storage (or `[]`), no chart yet. */
    constructor (stored: seq<Expense>)
      ensures Valid() && fresh(chart)
      ensures expenses == stored && chart.current == None
    {
      expenses := stored;
      chart := new ChartSlot();
    }

    /** The submit handler: push one record at the end, then re-render. */
    method Submit(amount: int, category: string, description: string, date: int) returns (view: View)
      requires Valid()
      modifies this, chart
      ensures Valid()
      ensures expenses == old(expenses) + [Expense(amount, category, description, date)]
      ensures Shows(view, expenses)
      ensures chart.current == Some(Instance(old(chart.created), PieFor(TotalsOf(expenses))))
      ensures chart.live == {old(chart.created)} && chart.created == old(chart.created) + 1
    {
      expenses := expenses + [Expense(amount, category, description, date)];
      view := Render();
    }

    /** The `DOMContentLoaded` handler, and what the submit handler does after the push. */
    method Render() returns (view: View)
      requires Valid()
      modifies chart
      ensures Valid()
      ensures Shows(view, expenses)
      ensures chart.current == Some(Instance(old(chart.created), PieFor(TotalsOf(expenses))))
      ensures chart.live == {old(chart.created)} && chart.created == old(chart.created) + 1
    {
      var rows := UpdateExpenseTable();
      UpdateChart();
      var total := Total(expenses);  // updateTotalExpenses
      var tips := GenerateSuggestions();
      view := View(rows, total, tips);
    }

    /** `updateExpenseTable`: the rows are a sorted copy; `expenses` keeps its order. */
    method UpdateExpenseTable() returns (rows: seq<Expense>)
      ensures NewestFirst(rows)
      ensures multiset(rows) == multiset(expenses)
      ensures forall d :: OnDate(rows, d) == OnDate(expenses, d)
    {
      rows := SortNewestFirst(expenses);
    }

    /** `updateChart`: destroy the old chart, store a pie of the category totals. */
    method UpdateChart()
      requires Valid()
      modifies chart
      ensures Valid()
      ensures chart.current == Some(Instance(old(chart.created), PieFor(TotalsOf(expenses))))
      ensures chart.live == {old(chart.created)} && chart.created == old(chart.created) + 1
      ensures old(chart.current).Some? ==> old(chart.current).value.id !in chart.live
    {
      Charts.UpdateChart(expenses, chart);
    }

    /** `generateSuggestions`: the conditional tips that fire, in rule order,
        then the two general tips. */
    method GenerateSuggestions() returns (tips: seq<Tip>)
      ensures SuggestionList(tips, GuardedFires(Entertainment, expenses), GuardedFires(Food, expenses), GuardedFires(Shopping, expenses))
    {
      var categoryTotals := GroupByCategory(expenses);
      var totalExpenses := SumSeq(categoryTotals.Values());
      FiresMatchesLedger(expenses, Entertainment);
      FiresMatchesLedger(expenses, Food);
      FiresMatchesLedger(expenses, Shopping);
      var ent := Fires(categoryTotals, totalExpenses, Entertainment);
      var food := Fires(categoryTotals, totalExpenses, Food);
      var shop := Fires(categoryTotals, totalExpenses, Shopping);
      tips := Suggestions(ent, food, shop);
    }
  }
}
