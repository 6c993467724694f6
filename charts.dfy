/**
 The pie chart of chart.js (and of `updateChart` in script.js and script2.js):
 the chart configuration built from the category totals, the fixed palette,
 and the module-level `expenseChart` slot whose old instance is destroyed
 before a new one is stored. A chart instance is opaque here: an id and the
 configuration it was created with.
 */
module Charts {
  import opened Ledger

  datatype Option<T> = None | Some(value: T)

  /** The `data` part of the pie chart configuration. */
  datatype PieConfig = PieConfig(labels: seq<string>, data: seq<int>, colors: seq<string>)

  /** One chart instance created by `new Chart(ctx, config)`. */
  datatype Instance = Instance(id: nat, config: PieConfig)

  /** The `backgroundColor` list: blue, green, red, yellow, purple, teal. */
  function Palette(): (p: seq<string>)
    ensures |p| == 6 && Distinct(p)
    ensures p[0] == "#3498db" && p[5] == "#1abc9c"
  {
    ["#3498db", "#2ecc71", "#e74c3c", "#f1c40f", "#9b59b6", "#1abc9c"]
  }

  /** `labels: Object.keys(categoryTotals)`, `data: Object.values(categoryTotals)`:
      one slice per key, its value at the same index. */
  function PieFor(t: Totals): (c: PieConfig)
    requires t.Valid()
    ensures |c.labels| == |c.data| && Distinct(c.labels)
    ensures forall i :: 0 <= i < |c.labels| ==> c.labels[i] in t.sums && c.data[i] == t.sums[c.labels[i]]
    ensures forall k :: k in t.sums ==> k in c.labels
    ensures c.colors == Palette()
  {
    PieConfig(t.keys, t.Values(), Palette())
  }

  /** The chart of a list of expenses has one slice per category present, in
      order of first appearance; each slice is that category's sum, and the
      slices add up to the grand total. */
  lemma PieMatchesLedger(es: seq<Expense>)
    ensures TotalsOf(es).Valid()
    ensures var c := PieFor(TotalsOf(es));
      && c.labels == Categories(es)
      && |c.data| == |c.labels|
      && (forall i :: 0 <= i < |c.labels| ==> c.data[i] == CategorySum(es, c.labels[i]))
      && (forall k :: k in c.labels <==> HasCategory(es, k))
      && SumSeq(c.data) == Total(es)
  {
    TotalsPartitionTotal(es);
  }

  /** Adding an expense keeps every earlier slice at its index: the chart's
      labels only grow at the end. */
  lemma PieLabelsGrow(es: seq<Expense>, e: Expense)
    ensures Categories(es) <= Categories(es + [e])
    ensures |Categories(es + [e])| <= |Categories(es)| + 1
  {
    CategoriesSnoc(es, e);
  }

  /** The `expenseChart` variable together with the charts it has created;
      `live` holds the ids of the instances not yet destroyed. */
  class ChartSlot {
    var current: Option<Instance>
    var live: set<nat>
    var created: nat

    /** At most one instance is live, and it is the one in the slot. */
    ghost predicate Valid()
      reads this
    {
      && (forall id :: id in live ==> id < created)
      && (current.None? ==> live == {})
      && (current.Some? ==> live == {current.value.id})
    }

    /** `let expenseChart = null`. */
    constructor ()
      ensures Valid() && current == None && created == 0
    {
      current := None;
      live := {};
      created := 0;
    }

    /** `if (expenseChart) expenseChart.destroy()`: the instance in the slot
        stops being live; the variable still refers to it. */
    method Destroy()
      requires Valid()
      modifies this
      ensures live == {}
      ensures current == old(current) && created == old(created)
      ensures forall id :: id in old(live) ==> id !in live
    {
      if current.Some? {
        live := live - {current.value.id};
      }
    }

    /** `expenseChart = new Chart(ctx, config)`: the canvas must be free, so no
        instance may be live when a new one is created. */
    method Create(config: PieConfig)
      requires live == {}
      modifies this
      ensures Valid()
      ensures current == Some(Instance(old(created), config))
      ensures live == {old(created)} && created == old(created) + 1
    {
      var chart := Instance(created, config);
      live := live + {chart.id};
      created := created + 1;
      current := Some(chart);
    }

    /** `updateChart`'s chart step: destroy the old instance, then create and
        store the new one. Two instances are never live together, because
        `Create` demands that none is. */
    method Replace(config: PieConfig)
      requires Valid()
      modifies this
      ensures Valid()
      ensures current == Some(Instance(old(created), config))
      ensures live == {old(created)} && created == old(created) + 1
      ensures old(current).Some? ==> old(current).value.id !in live
    {
      Destroy();
      Create(config);
    }
  }

  /** A valid slot never holds more than one live chart. */
  lemma AtMostOneLive(slot: ChartSlot)
    requires slot.Valid()
    ensures |slot.live| <= 1
  {
  }

  /** chart.js `updateChart`: aggregate `expenses` by category, then replace
      the chart in the slot by a pie of those totals. */
  method UpdateChart(expenses: seq<Expense>, slot: ChartSlot)
    requires slot.Valid()
    modifies slot
    ensures slot.Valid()
    ensures slot.current == Some(Instance(old(slot.created), PieFor(TotalsOf(expenses))))
    ensures slot.live == {old(slot.created)} && slot.created == old(slot.created) + 1
    ensures old(slot.current).Some? ==> old(slot.current).value.id !in slot.live
  {
    var categoryTotals := GroupByCategory(expenses);
    slot.Replace(PieFor(categoryTotals));
  }
}
