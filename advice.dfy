/**
 The suggestion generator: three threshold rules on the category totals,
 evaluated in a fixed order, then two tips that are always given.
 */
module Advice {
  import opened Ledger

  datatype Tip = CutEntertainment | PlanMeals | DelayPurchases | ReviewSubscriptions | SetBudget

  /** The position of each tip in the order the generator pushes them. */
  function Rank(t: Tip): nat
  {
    match t
    case CutEntertainment => 0
    case PlanMeals => 1
    case DelayPurchases => 2
    case ReviewSubscriptions => 3
    case SetBudget => 4
  }

  /** The three conditional rules. */
  datatype Rule = Entertainment | Food | Shopping

  function Category(r: Rule): string
  {
    match r
    case Entertainment => "entertainment"
    case Food => "food"
    case Shopping => "shopping"
  }

  /** The share of the total above which the rule fires. */
  function Share(r: Rule): real
  {
    match r
    case Entertainment => 0.2
    case Food => 0.3
    case Shopping => 0.25
  }

  function TipOf(r: Rule): Tip
  {
    match r
    case Entertainment => CutEntertainment
    case Food => PlanMeals
    case Shopping => DelayPurchases
  }

  /** `v > total * share`, cross-multiplied so that it stays on integers:
      strictly above the share, so exactly the share does not fire. */
  function Exceeds(r: Rule, v: int, total: int): (b: bool)
    ensures b <==> (v as real) > (total as real) * Share(r)
  {
    match r
    case Entertainment => 5 * v > total
    case Food => 10 * v > 3 * total
    case Shopping => 4 * v > total
  }

  /** script.js: `categoryTotals[c] && categoryTotals[c] > totalExpenses * share`.
      An absent category (`undefined`) and a zero total are both falsy. */
  function GuardedFires(r: Rule, es: seq<Expense>): (b: bool)
    ensures b <==> var c := Category(r);
      && HasCategory(es, c) && CategorySum(es, c) != 0
      && (CategorySum(es, c) as real) > (Total(es) as real) * Share(r)
    ensures b ==> PlainFires(r, es)
  {
    var c := Category(r);
    HasCategory(es, c) && CategorySum(es, c) != 0 && Exceeds(r, CategorySum(es, c), Total(es))
  }

  /** script2.js: `categoryTotals[c] > totalExpenses * share`, with no truthiness
      test; `undefined > x` is false, so an absent category never fires. */
  function PlainFires(r: Rule, es: seq<Expense>): (b: bool)
    ensures b <==> var c := Category(r);
      && HasCategory(es, c)
      && (CategorySum(es, c) as real) > (Total(es) as real) * Share(r)
    ensures !HasCategory(es, Category(r)) ==> !b
  {
    var c := Category(r);
    HasCategory(es, c) && Exceeds(r, CategorySum(es, c), Total(es))
  }

  /** Tips with strictly increasing rank: no repeats, generator order. */
  predicate Ranked(tips: seq<Tip>)
  {
    forall i, j :: 0 <= i < j < |tips| ==> Rank(tips[i]) < Rank(tips[j])
  }

  /** `tips` is the list the generator shows when the entertainment, food and
      shopping rules fire as `ent`, `food` and `shop` say. */
  predicate SuggestionList(tips: seq<Tip>, ent: bool, food: bool, shop: bool)
  {
    && (CutEntertainment in tips <==> ent)
    && (PlanMeals in tips <==> food)
    && (DelayPurchases in tips <==> shop)
    && 2 <= |tips| <= 5
    && tips[|tips| - 2..] == [ReviewSubscriptions, SetBudget]
    && Ranked(tips)
  }

  /** The successive `suggestions.push` calls of `generateSuggestions`. */
  method Suggestions(ent: bool, food: bool, shop: bool) returns (tips: seq<Tip>)
    ensures SuggestionList(tips, ent, food, shop)
  {
    tips := [];
    if ent {
      tips := tips + [CutEntertainment];
    }
    assert tips == (if ent then [CutEntertainment] else []);
    if food {
      tips := tips + [PlanMeals];
    }
    assert tips == (if ent then [CutEntertainment] else []) + (if food then [PlanMeals] else []);
    if shop {
      tips := tips + [DelayPurchases];
    }
    assert tips == Fired(ent, food, shop);
    ghost var fired := tips;
    tips := tips + [ReviewSubscriptions];
    tips := tips + [SetBudget];
    assert tips == fired + [ReviewSubscriptions, SetBudget];
    FiredIsRanked(ent, food, shop);
    GeneralLast(fired);
  }

  /** The conditional tips that fire, in rule order. */
  function Fired(ent: bool, food: bool, shop: bool): seq<Tip>
  {
    (if ent then [CutEntertainment] else [])
    + (if food then [PlanMeals] else [])
    + (if shop then [DelayPurchases] else [])
  }

  lemma FiredIsRanked(ent: bool, food: bool, shop: bool)
    ensures var c := Fired(ent, food, shop);
      && |c| <= 3 && Ranked(c) && (forall t :: t in c ==> Rank(t) < 3)
      && (CutEntertainment in c <==> ent) && (PlanMeals in c <==> food) && (DelayPurchases in c <==> shop)
  {
    var c := Fired(ent, food, shop);
    if ent && food && shop {
      assert c == [CutEntertainment, PlanMeals, DelayPurchases];
    } else if ent && food {
      assert c == [CutEntertainment, PlanMeals];
    } else if ent && shop {
      assert c == [CutEntertainment, DelayPurchases];
    } else if food && shop {
      assert c == [PlanMeals, DelayPurchases];
    } else if ent {
      assert c == [CutEntertainment];
    } else if food {
      assert c == [PlanMeals];
    } else if shop {
      assert c == [DelayPurchases];
    } else {
      assert c == [];
    }
  }

  /** Appending the two general tips to ranked conditional tips gives the
      suggestion list of exactly the conditional tips present. */
  lemma GeneralLast(c: seq<Tip>)
    requires |c| <= 3 && Ranked(c) && forall t :: t in c ==> Rank(t) < 3
    ensures SuggestionList(c + [ReviewSubscriptions, SetBudget], CutEntertainment in c, PlanMeals in c, DelayPurchases in c)
  {
    var tips := c + [ReviewSubscriptions, SetBudget];
    assert tips[|tips| - 2..] == [ReviewSubscriptions, SetBudget];
    forall i, j | 0 <= i < j < |tips| ensures Rank(tips[i]) < Rank(tips[j]) {
      if j < |c| {
        assert tips[i] == c[i] && tips[j] == c[j];
      } else if i < |c| {
        assert tips[i] == c[i] && c[i] in c;
      }
    }
    forall t | Rank(t) < 3 ensures t in tips <==> t in c {
      assert t in tips <==> t in c || t in [ReviewSubscriptions, SetBudget];
    }
  }

  lemma RankInjective(s: Tip, t: Tip)
    requires Rank(s) == Rank(t)
    ensures s == t
  {
  }

  /** Two ranked lists with the same tips are the same list. */
  lemma {:induction false} RankedUnique(a: seq<Tip>, b: seq<Tip>)
    requires Ranked(a) && Ranked(b)
    requires forall t :: t in a <==> t in b
    ensures a == b
    decreases |a| + |b|
  {
    if a == [] || b == [] {
      FirstIsMember(a);
      FirstIsMember(b);
    } else {
      RankedLastAgree(a, b);
      var a', b' := a[..|a| - 1], b[..|b| - 1];
      RankedDropLast(a);
      RankedDropLast(b);
      var x := a[|a| - 1];
      assert a == a' + [x] && b == b' + [x];
      forall t ensures t in a' <==> t in b' {
        assert t in a <==> t in a' || t == x;
        assert t in b <==> t in b' || t == x;
      }
      RankedUnique(a', b');
    }
  }

  lemma FirstIsMember(s: seq<Tip>)
    ensures s != [] ==> s[0] in s
  {
  }

  /** The last tip of a ranked list has the highest rank of the list. */
  lemma RankedLastIsTop(a: seq<Tip>, t: Tip)
    requires Ranked(a) && t in a
    ensures Rank(t) <= Rank(a[|a| - 1])
  {
    var i :| 0 <= i < |a| && a[i] == t;
    assert i == |a| - 1 || Rank(a[i]) < Rank(a[|a| - 1]);
  }

  lemma RankedLastAgree(a: seq<Tip>, b: seq<Tip>)
    requires Ranked(a) && Ranked(b) && a != [] && b != []
    requires forall t :: t in a <==> t in b
    ensures a[|a| - 1] == b[|b| - 1]
  {
    var x, y := a[|a| - 1], b[|b| - 1];
    assert x in a && y in b;
    RankedLastIsTop(a, y);
    RankedLastIsTop(b, x);
    RankInjective(x, y);
  }

  /** Dropping the last tip of a ranked list removes that tip and only it. */
  lemma RankedDropLast(a: seq<Tip>)
    requires Ranked(a) && a != []
    ensures Ranked(a[..|a| - 1])
    ensures a[|a| - 1] !in a[..|a| - 1]
  {
    forall k | 0 <= k < |a| - 1 ensures a[k] != a[|a| - 1] {
      assert Rank(a[k]) < Rank(a[|a| - 1]);
    }
  }

  /** The suggestion list is determined by which rules fire. */
  lemma SuggestionListUnique(a: seq<Tip>, b: seq<Tip>, ent: bool, food: bool, shop: bool)
    requires SuggestionList(a, ent, food, shop) && SuggestionList(b, ent, food, shop)
    ensures a == b
  {
    assert a[|a| - 2..][0] == ReviewSubscriptions && a[|a| - 2..][1] == SetBudget;
    assert b[|b| - 2..][0] == ReviewSubscriptions && b[|b| - 2..][1] == SetBudget;
    assert ReviewSubscriptions in a && SetBudget in a;
    assert ReviewSubscriptions in b && SetBudget in b;
    forall t ensures t in a <==> t in b {
      match t
      case CutEntertainment =>
      case PlanMeals =>
      case DelayPurchases =>
      case ReviewSubscriptions =>
      case SetBudget =>
    }
    RankedUnique(a, b);
  }

  /** For non-negative amounts the truthiness test of script.js changes
      nothing: both forms of each rule agree. */
  lemma GuardsAgreeOnNonNegative(r: Rule, es: seq<Expense>)
    requires forall i :: 0 <= i < |es| ==> es[i].amount >= 0
    ensures GuardedFires(r, es) <==> PlainFires(r, es)
  {
    TotalNonNegative(es);
  }

  /** With a negative amount the two forms differ: a present entertainment
      total of 0 is falsy in script.js but exceeds 20% of a negative total. */
  lemma GuardsDifferOnNegativeTotal()
    ensures var es := [Expense(0, "entertainment", "", 0), Expense(-5, "food", "", 0)];
      !GuardedFires(Entertainment, es) && PlainFires(Entertainment, es)
  {
    var es := [Expense(0, "entertainment", "", 0), Expense(-5, "food", "", 0)];
    assert es[0].category == "entertainment";
    assert es[..1][..0] == [] && es[..1] == [es[0]];
    assert CategorySum(es[..1], "entertainment") == 0;
    assert CategorySum(es, "entertainment") == 0;
    assert Total(es[..1]) == 0;
    assert Total(es) == -5;
  }

  /** The worked scenario: 100 on food and 50 on entertainment make a total of
      150; entertainment is 33.3% (> 20%) and food 66.7% (> 30%), so both tips
      fire and the shopping tip does not. */
  lemma FoodAndEntertainmentScenario()
    ensures var es := [Expense(100, "food", "", 0), Expense(50, "entertainment", "", 1)];
      && Total(es) == 150
      && CategorySum(es, "food") == 100 && CategorySum(es, "entertainment") == 50
      && GuardedFires(Entertainment, es) && GuardedFires(Food, es) && !GuardedFires(Shopping, es)
  {
    var es := [Expense(100, "food", "", 0), Expense(50, "entertainment", "", 1)];
    assert es[..1][..0] == [] && es[..1] == [es[0]];
    assert es[0].category == "food" && es[1].category == "entertainment";
  }
}
