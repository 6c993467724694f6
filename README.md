# Economind expense ledger — a Dafny model

Economind is a personal expense tracker. Its browser pages keep a list of
expenses in memory: amount, category, description and date. Each time a form is
submitted, the page appends one record and redraws four things:

- a table of the expenses, newest first;
- a pie chart of the totals per category;
- the grand total;
- a short list of budgeting tips.

The same logic is written three times: `script.js` (the rupee page),
`script2.js` (the dollar page) and the standalone `updateChart` of `chart.js`.
This project models that ledger logic and proves what it promises.

Modules, one file each:

- `Ledger` (`ledger.dfy`): the `Expense` record, the reference sums
  (`Total`, `CategorySum`, `Categories`), the `categoryTotals` dictionary
  and the `forEach` loop that fills it (`GroupByCategory`). The dictionary is a
  JavaScript object, so its keys are kept in insertion order.
- `TableOrder` (`table_order.dfy`): the table's copy-and-sort. ECMA-262
  requires `Array.prototype.sort` to be stable (section 22.1.3.27 of the 10th
  edition). The sort is modelled as a stable insertion sort, newest first.
  A lemma shows that any stable newest-first order gives the same rows.
- `Advice` (`advice.dfy`): the three threshold rules and the list of tips.
  This module holds both forms of the rules: the truthiness-guarded form of
  `script.js` and the plain comparison of `script2.js`.
- `Charts` (`charts.dfy`): the pie configuration (labels, data, palette) and
  the `expenseChart` slot. The slot destroys the old instance before it stores
  a new one.
- `RupeeTracker` (`rupee_tracker.dfy`) and `DollarTracker`
  (`dollar_tracker.dfy`): `script.js` and `script2.js`. Each page's
  module-level state (`expenses` and the chart slot) is a class. Its methods
  are the submit handler and the four render functions.

Encodings:

- Amounts are integers in minor currency units.
- Dates are integer day keys. An ISO `YYYY-MM-DD` date orders like its day
  key.
- The thresholds 20%, 30% and 25% are cross-multiplied: `5*v > total`,
  `10*v > 3*total` and `4*v > total`. `Exceeds` proves that each of these
  matches the real-number comparison `v > total * share`.

Behaviour of the code worth noting:

- In `script.js`, a conditional tip stays off when its category total is 0,
  because 0 is falsy. `script2.js` has no such test.
- The code passes exactly six colours. The colour Chart.js gives a seventh
  slice is not modelled.
- Amounts are not validated. The model accepts any integer, including
  negative ones. `GuardsDifferOnNegativeTotal` shows that with a negative
  amount, the two pages can show different tips.

## Model

| member | source | states |
|---|---|---|
| `Ledger.GroupByCategory` | chart.js:5-11 | After the loop, the keys are exactly the categories present, in first-appearance order, with no duplicates. A category with no expense has no key. Each value is the sum of that category's amounts. The input list is only read. |
| `Ledger.Categories` | script.js:70-76 | The keys the loop creates are distinct. A string is a key iff some expense has that category. |
| `Ledger.CategoriesPrefix` | script.js:72-74 | The keys created for any prefix of the list are a prefix of the final keys. Keys therefore stay in first-appearance order. |
| `Ledger.TotalsPartitionTotal` | script.js:132 | The sum of the category totals, `Object.values(...).reduce`, equals the grand total over the expenses. |
| `Ledger.TotalPermutation` | script.js:114 | The `reduce` grand total is the same for any reordering of the expenses. |
| `Ledger.Totals.Set` | script.js:72-75 | Writing a key that is not yet in the dictionary adds it last in key order. Writing an existing key keeps its place. The value map is updated at that key only, and a valid dictionary stays valid. |
| `Ledger.Totals.Values` | script.js:132 | `Object.values` has one entry per key, and entry `i` is the value stored under the `i`-th key. |
| `Ledger.TotalNonNegative` | script2.js:110 | With non-negative amounts, the grand total is non-negative. |
| `TableOrder.SortNewestFirst` | script.js:51 | The sorted copy has non-increasing dates. It is a permutation of the expenses. For every date, its rows keep their original relative order, so the sort is stable. |
| `TableOrder.InsertOnDate` | script.js:51 | One step of the stable sort puts the new row last among the rows of its date. Rows of other dates are untouched. |
| `TableOrder.StableOrderUnique` | script2.js:54 | Two newest-first lists with the same rows for every date are equal. Every stable sort by date therefore gives the same table. |
| `TableOrder.SortIsTheStableOrder` | script.js:51 | Any newest-first list whose per-date rows match the expenses is exactly `SortNewestFirst` of them. |
| `Advice.Exceeds` | script.js:138 | A rule fires iff the category total is strictly above `total * share` as a real number, with shares 0.2, 0.3 and 0.25. Exactly the share does not fire. |
| `Advice.GuardedFires` | script.js:138-148 | A guarded rule fires iff its category is present, its total is non-zero, and the total is strictly above its share of the grand total as a real number. A guarded rule that fires also fires in its plain form. |
| `Advice.PlainFires` | script2.js:129-137 | A plain rule fires iff its category is present and its total is strictly above its share of the grand total as a real number. An absent category never fires. |
| `Advice.Suggestions` | script.js:135-154 | The conditional tips that fire come in the order entertainment, food, shopping. The subscriptions tip and then the budget tip always come last. The list has 2 to 5 entries, with no repeats. |
| `Advice.SuggestionListUnique` | script2.js:127-142 | The tip list is fully determined by which of the three rules fire. |
| `Advice.GuardsAgreeOnNonNegative` | script2.js:129-139 | With non-negative amounts, the guarded rules of `script.js` and the plain rules of `script2.js` fire on exactly the same inputs. |
| `Advice.GuardsDifferOnNegativeTotal` | script.js:138 | An example: entertainment total 0 and grand total -5. The guarded entertainment rule does not fire, but the plain one does. |
| `Advice.FoodAndEntertainmentScenario` | script.js:143 | 100 on food and 50 on entertainment give a total of 150. The entertainment and food tips fire. The shopping tip does not. |
| `Charts.Palette` | chart.js:25-32 | The palette is exactly six distinct colours in a fixed order, from `#3498db` to `#1abc9c`. |
| `Charts.PieFor` | chart.js:22-24 | Labels and data have equal length. `data[i]` is the dictionary's value for `labels[i]`. Every key is a label exactly once. The colours are the palette. |
| `Charts.PieMatchesLedger` | script.js:86-89 | The pie built for the expenses has one label per category present, in first-appearance order. Each slice is that category's sum, and the slices add up to the grand total. |
| `Charts.PieLabelsGrow` | script2.js:87 | Adding an expense keeps every earlier label at its index. At most one label is added, at the end. |
| `Charts.ChartSlot.constructor` | script.js:3 | The slot starts empty (`null`) with no live chart. |
| `Charts.ChartSlot.Destroy` | chart.js:14-16 | The instance in the slot, if any, is no longer live, and no instance is live. The variable still refers to the destroyed instance. |
| `Charts.ChartSlot.Create` | chart.js:19 | A new instance may be created only when no instance is live. It is stored in the slot and is the only live instance. |
| `Charts.ChartSlot.Replace` | chart.js:14-19 | Destroys the old instance first, then creates and stores a fresh one with the given configuration. Because `Create` requires that nothing is live, two instances are never live at once. Afterwards exactly one instance, the stored one, is live. |
| `Charts.AtMostOneLive` | script.js:79-84 | A valid slot never has more than one live chart. |
| `Charts.UpdateChart` | chart.js:1-44 | Aggregates the expenses, then replaces the chart by the pie of the category totals. Only the new instance is live. |
| `RupeeTracker.Fires` | script.js:138-148 | On the dictionary, a guard holds iff the key is present, its value is non-zero, and the value is strictly above `totalExpenses * share` as a real number. |
| `RupeeTracker.FiresMatchesLedger` | script.js:132-148 | Evaluated on the dictionary the loop builds and on the sum of its values, each guard fires exactly when `GuardedFires` holds of the expenses. |
| `RupeeTracker.App.constructor` | script.js:1-3 | The page starts with the list it loaded and no chart. |
| `RupeeTracker.App.Submit` | script.js:20-39 | `expenses` becomes the old list plus one record at the end, and nothing else in it changes. The page then shows that list's sorted rows, total, tips and chart. |
| `RupeeTracker.App.Render` | script.js:12-17 | One render pass shows stable newest-first rows, the grand total, the guarded tips, and a new pie of the category totals. |
| `RupeeTracker.App.UpdateExpenseTable` | script.js:47-63 | The rows are a stable, newest-first permutation of `expenses`. `expenses` itself is not modified. |
| `RupeeTracker.App.UpdateChart` | script.js:66-110 | The old chart is destroyed and replaced by the pie of the current totals. |
| `RupeeTracker.App.GenerateSuggestions` | script.js:119-163 | The tips are the list whose entertainment, food and shopping entries fire iff the category is present, its total is non-zero and strictly above its share of the grand total. The general tips come last. |
| `DollarTracker.Fires` | script2.js:129-137 | On the dictionary, a comparison holds iff the key is present and its value is strictly above `totalExpenses * share` as a real number. A missing key (`undefined`) never fires. |
| `DollarTracker.FiresMatchesLedger` | script2.js:126-137 | Evaluated on the dictionary the loop builds and on the sum of its values, each comparison fires exactly when `PlainFires` holds of the expenses. |
| `DollarTracker.MessagesDistinct` | script2.js:129-142 | The five pushed texts are pairwise different, so the shown texts determine the tips. |
| `DollarTracker.App.constructor` | script2.js:1-3 | The page starts with the list it loaded and no chart. |
| `DollarTracker.App.Submit` | script2.js:20-43 | Appends exactly one record at the end of `expenses`, then shows the sorted rows, total, tips and chart of the new list. |
| `DollarTracker.App.Render` | script2.js:12-17 | One render pass shows stable newest-first rows, the grand total, the plain-rule tips, and a new pie. |
| `DollarTracker.App.UpdateExpenseTable` | script2.js:51-66 | The rows are a stable, newest-first permutation of a copy. `expenses` is left unmodified. |
| `DollarTracker.App.UpdateChart` | script2.js:69-106 | The old chart is destroyed before a new pie of the totals is stored. Labels and data are aligned. |
| `DollarTracker.App.GenerateSuggestions` | script2.js:115-150 | A conditional tip fires iff its category is present and its total is strictly above its share of the grand total. An absent category never fires. The two general tips come last. |

## Left out

- `server.js` is not part of this model. It covers the Express routes, SQLite storage, `ORDER BY`, auto-increment ids and the delete count, all of which are behaviour of the database and the HTTP framework.
- Local storage persistence (`saveExpenses` and the `JSON.parse` at load) is browser I/O. The constructors take the loaded list as a parameter, and the model does not save anything.
- The DOM and Chart.js are left out: `innerHTML`, `createElement`, event listeners, `new Chart` and `destroy`. A chart instance is an id plus its configuration. `live` records which instances have not been destroyed.
- Display formatting is left out: `formatDate` (locale-dependent), `toFixed(2)` and the currency symbols. The total at script.js:115 shows the literal text `₹₹{total.toFixed(2)}`, which starts with two rupee signs, because `₹{` is not interpolation; the model keeps the number. script2.js:111 has no backticks, so that file as written does not parse. The model follows the evident intent of its functions.
- Amounts are exact integers, not doubles. `parseFloat` of an empty field (NaN) is not modelled. Neither is the way the `!categoryTotals[c]` reset drops a NaN sum. Neither is the rounding of `total * 0.2`, `* 0.3` and `* 0.25`; the shares are exact rationals. For integer amounts the reset only re-zeroes a 0 value, and the model keeps that branch.
- Dates are integer day keys. An unparseable date string, for which `new Date(...)` compares as NaN, is not modelled.
- `Object.keys` lists integer-like keys (such as `"12"`) before the others. The model uses plain insertion order, which is what JavaScript does for category names that are not array indices. The form's categories are such names.
- Categories are assumed not to be names of `Object.prototype` properties. For such a name, `categoryTotals` behaves differently. With `constructor`, the read at script.js:72 finds the inherited function, which is truthy, so the entry is not reset and script.js:75 concatenates a string onto it. With `__proto__`, the read at script.js:72 finds the inherited `Object.prototype`, which is truthy, so the entry is not reset. script.js:75 then assigns a string (`"[object Object]"` followed by the amount), and the `__proto__` setter ignores a value that is not an object, so the key never appears in `Object.keys` or `Object.values`. Its amounts then drop out of `totalExpenses` at script.js:132, and that total differs from the one at script.js:114. `GroupByCategory`, `TotalsPartitionTotal` and `PieMatchesLedger` describe the program only for other category names.
- The code passes six colours. The colour Chart.js gives a seventh or later slice is not modelled; the model records only the six colours passed.
- The `forEach` loops are `while` loops over an index.
- `chart.js` reads the globals `expenses` and `expenseChart`, which it does not declare. `Charts.UpdateChart` takes them as parameters.
- The suggestion texts differ between the two pages. They are the `Message` functions. A render pass returns `Tip` values rather than DOM nodes.
- RupeeTracker.Message: no property of the texts is stated. The shorter texts of `script2.js` are proved pairwise distinct (`DollarTracker.MessagesDistinct`).
