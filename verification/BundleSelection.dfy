/** `recommend_product_bundle` and its budget filter: sort by line total, keep what still fits.
    The result is proved optimal among all affordable selections. */
module BundleSelection {
  import opened Options
  import opened StableSort

  datatype Item = Item(productId: string, name: string, quantity: int, unitPrice: int, lineTotal: int)

  const LINE_TOTAL: Item -> int := (item: Item) => item.lineTotal

  function ByPrice(items: seq<Item>): (r: seq<Item>)
    ensures |r| == |items|
  {
    Sort(items, ByKey(LINE_TOTAL))
  }

  function Sum(items: seq<Item>): int {
    if items == [] then 0 else items[0].lineTotal + Sum(items[1..])
  }

  /** Any selection at all: one flag per item. */
  function Total(items: seq<Item>, pick: seq<bool>): int
    requires |pick| == |items|
  {
    if items == [] then 0 else (if pick[0] then items[0].lineTotal else 0) + Total(items[1..], pick[1..])
  }

  function Count(pick: seq<bool>): nat {
    if pick == [] then 0 else (if pick[0] then 1 else 0) + Count(pick[1..])
  }

  lemma {:induction false} CountBound(pick: seq<bool>)
    ensures Count(pick) <= |pick|
  {
    if pick != [] { CountBound(pick[1..]); }
  }

  lemma {:induction false} SumAppend(a: seq<Item>, x: Item)
    ensures Sum(a + [x]) == Sum(a) + x.lineTotal
  {
    if a == [] {
      assert a + [x] == [x] && [x][1..] == [];
    } else {
      assert (a + [x])[1..] == a[1..] + [x];
      SumAppend(a[1..], x);
    }
  }

  lemma PrefixOfCons(x: Item, s: seq<Item>, c: nat)
    requires c <= |s|
    ensures ([x] + s)[..c + 1] == [x] + s[..c]
    ensures Sum(([x] + s)[..c + 1]) == x.lineTotal + Sum(s[..c])
  {
    assert ([x] + s[..c])[1..] == s[..c];
  }

  lemma PrefixStep(s: seq<Item>, c: nat)
    requires c < |s|
    ensures Sum(s[..c + 1]) == Sum(s[..c]) + s[c].lineTotal
  {
    assert s[..c + 1] == s[..c] + [s[c]];
    SumAppend(s[..c], s[c]);
  }

  /** Inserting an item makes each prefix no dearer, and adds at most its own price to the next. */
  lemma {:induction false} InsertPrefix(x: Item, s: seq<Item>, c: nat)
    requires Sorted(s, ByKey(LINE_TOTAL)) && c <= |s|
    ensures Sum(Insert(x, s, ByKey(LINE_TOTAL))[..c]) <= Sum(s[..c])
    ensures Sum(Insert(x, s, ByKey(LINE_TOTAL))[..c + 1]) <= x.lineTotal + Sum(s[..c])
  {
    if s == [] || LINE_TOTAL(x) <= LINE_TOTAL(s[0]) {
      PrefixOfCons(x, s, c);
      if c > 0 {
        PrefixOfCons(x, s, c - 1);
        PrefixStep(s, c - 1);
        assert LINE_TOTAL(s[0]) <= LINE_TOTAL(s[c - 1]);
      }
    } else {
      var t := s[1..];
      assert s == [s[0]] + t;
      PrefixOfCons(s[0], Insert(x, t, ByKey(LINE_TOTAL)), c);
      if c > 0 {
        PrefixOfCons(s[0], Insert(x, t, ByKey(LINE_TOTAL)), c - 1);
        PrefixOfCons(s[0], t, c - 1);
        InsertPrefix(x, t, c - 1);
      } else {
        assert Insert(x, t, ByKey(LINE_TOTAL))[..0] == [];
      }
    }
  }

  /** The exchange argument: no selection of `c` items costs less than the `c` cheapest. */
  lemma {:induction false} CheapestPrefix(items: seq<Item>, pick: seq<bool>)
    requires |pick| == |items|
    ensures Count(pick) <= |items| && Sum(ByPrice(items)[..Count(pick)]) <= Total(items, pick)
  {
    CountBound(pick);
    if items != [] {
      var c := Count(pick[1..]);
      CheapestPrefix(items[1..], pick[1..]);
      SortSorts(items[1..], ByKey(LINE_TOTAL));
      InsertPrefix(items[0], ByPrice(items[1..]), c);
    }
  }

  /** What the loop ends with: the affordable prefix of the price order that cannot be extended. */
  predicate IsGreedy(selected: seq<Item>, items: seq<Item>, budget: int) {
    && |selected| <= |items|
    && selected == ByPrice(items)[..|selected|]
    && (selected != [] || budget >= 0 ==> Sum(selected) <= budget)
    && (selected != [] ==> budget >= 0 || selected[0].lineTotal <= budget)
    && (|selected| < |items| ==> Sum(selected) + ByPrice(items)[|selected|].lineTotal > budget)
  }

  lemma {:induction false} LongerPrefixCostsMore(s: seq<Item>, m: nat, c: nat, budget: int)
    requires Sorted(s, ByKey(LINE_TOTAL)) && m < c <= |s|
    requires Sum(s[..m]) <= budget < Sum(s[..m]) + s[m].lineTotal
    ensures Sum(s[..c]) > budget
    decreases c
  {
    assert s[..c] == s[..c - 1] + [s[c - 1]];
    SumAppend(s[..c - 1], s[c - 1]);
    if c - 1 > m {
      LongerPrefixCostsMore(s, m, c - 1, budget);
      assert LINE_TOTAL(s[m]) <= LINE_TOTAL(s[c - 1]);
    }
  }

  /** Among all selections within the budget, the greedy one has the most items and, at that size, the
      smallest total; negative line totals and budgets included, as long as it is itself within it. */
  lemma {:induction false} GreedyIsOptimal(selected: seq<Item>, items: seq<Item>, budget: int, pick: seq<bool>)
    requires IsGreedy(selected, items, budget) && Sum(selected) <= budget
    requires |pick| == |items| && Total(items, pick) <= budget
    ensures Count(pick) <= |selected|
    ensures Count(pick) == |selected| ==> Sum(selected) <= Total(items, pick)
  {
    CheapestPrefix(items, pick);
    SortSorts(items, ByKey(LINE_TOTAL));
    if Count(pick) > |selected| {
      LongerPrefixCostsMore(ByPrice(items), |selected|, Count(pick), budget);
    }
  }

  /** Every affordable selection has fewer items, or as many and costs no less. */
  ghost predicate IsOptimal(selected: seq<Item>, items: seq<Item>, budget: int) {
    forall pick: seq<bool> :: |pick| == |items| && Total(items, pick) <= budget ==>
      Count(pick) < |selected| || (Count(pick) == |selected| && Sum(selected) <= Total(items, pick))
  }

  /** The smallest total there is: that of the items with a negative one. */
  function Discount(items: seq<Item>): int {
    if items == [] then 0 else (if items[0].lineTotal < 0 then items[0].lineTotal else 0) + Discount(items[1..])
  }

  function Discounted(items: seq<Item>): (pick: seq<bool>)
    ensures |pick| == |items| && Total(items, pick) == Discount(items)
  {
    if items == [] then [] else [items[0].lineTotal < 0] + Discounted(items[1..])
  }

  lemma {:induction false} NothingIsCheaper(items: seq<Item>, pick: seq<bool>)
    requires |pick| == |items|
    ensures Discount(items) <= Total(items, pick)
    ensures Count(pick) == 0 ==> Total(items, pick) == 0
  {
    if items != [] { NothingIsCheaper(items[1..], pick[1..]); }
  }

  /** The first addition can be made, or an empty selection is within the budget. */
  predicate CanStart(items: seq<Item>, budget: int) {
    budget >= 0 || exists i :: 0 <= i < |items| && items[i].lineTotal <= budget
  }

  lemma CheapestIsLeast(items: seq<Item>)
    requires items != []
    ensures ByPrice(items)[0] in items
    ensures forall i :: 0 <= i < |items| ==> ByPrice(items)[0].lineTotal <= items[i].lineTotal
  {
    var s := ByPrice(items);
    SortIsPermutation(items, ByKey(LINE_TOTAL));
    SortSorts(items, ByKey(LINE_TOTAL));
    assert s[0] in s;
    forall i | 0 <= i < |items| ensures s[0].lineTotal <= items[i].lineTotal {
      assert items[i] in s;
      var k :| 0 <= k < |s| && s[k] == items[i];
      assert k > 0 ==> ByKey(LINE_TOTAL)(s[0], s[k]);
    }
  }

  /** The result fits the budget exactly when the loop can make its first addition, or need not. */
  lemma GreedyFitsIff(selected: seq<Item>, items: seq<Item>, budget: int)
    requires IsGreedy(selected, items, budget)
    ensures Sum(selected) <= budget <==> CanStart(items, budget)
  {
    if items != [] {
      CheapestIsLeast(items);
      var k :| 0 <= k < |items| && items[k] == ByPrice(items)[0];
    }
  }

  lemma GreedyIsOptimalIfItFits(selected: seq<Item>, items: seq<Item>, budget: int)
    requires IsGreedy(selected, items, budget)
    ensures IsOptimal(selected, items, budget) <==> Sum(selected) <= budget || Discount(items) > budget
  {
    if Sum(selected) <= budget {
      forall pick: seq<bool> | |pick| == |items| && Total(items, pick) <= budget
        ensures Count(pick) < |selected| || (Count(pick) == |selected| && Sum(selected) <= Total(items, pick))
      {
        GreedyIsOptimal(selected, items, budget, pick);
      }
    } else {
      forall pick: seq<bool> | |pick| == |items| ensures Discount(items) <= Total(items, pick) {
        NothingIsCheaper(items, pick);
      }
      NothingIsCheaper(items, Discounted(items));
      assert Discount(items) <= budget ==> Count(Discounted(items)) > |selected|;
    }
  }

  /** Exactly when the result is optimal, seen from the arguments: the budget is not negative, as the
      caller sees to, or some item alone fits it, or nothing together does. */
  lemma GreedyIsOptimalIff(selected: seq<Item>, items: seq<Item>, budget: int)
    requires IsGreedy(selected, items, budget)
    ensures IsOptimal(selected, items, budget) <==> CanStart(items, budget) || Discount(items) > budget
    ensures budget >= 0 ==> IsOptimal(selected, items, budget)
  {
    GreedyFitsIff(selected, items, budget);
    GreedyIsOptimalIfItFits(selected, items, budget);
  }

  lemma PrefixIsPart(s: seq<Item>, m: nat, price: int)
    requires m <= |s|
    ensures multiset(s[..m]) <= multiset(s) && WithKey(s[..m], LINE_TOTAL, price) <= WithKey(s, LINE_TOTAL, price)
  {
    assert s == s[..m] + s[m..];
    WithKeyConcat(s[..m], s[m..], price);
  }

  /** The selection is drawn from the items, and ties in price go to the earlier item. */
  lemma {:induction false} GreedyComesFromItems(selected: seq<Item>, items: seq<Item>, budget: int, price: int)
    requires IsGreedy(selected, items, budget)
    ensures multiset(selected) <= multiset(items)
    ensures WithKey(selected, LINE_TOTAL, price) <= WithKey(items, LINE_TOTAL, price)
  {
    PrefixIsPart(ByPrice(items), |selected|, price);
    SortIsPermutation(items, ByKey(LINE_TOTAL));
    SortIsStable(items, LINE_TOTAL, price);
  }

  lemma {:induction false} WithKeyConcat(a: seq<Item>, b: seq<Item>, price: int)
    ensures WithKey(a + b, LINE_TOTAL, price) == WithKey(a, LINE_TOTAL, price) + WithKey(b, LINE_TOTAL, price)
  {
    if a == [] {
      assert a + b == b;
    } else {
      assert (a + b)[1..] == a[1..] + b;
      WithKeyConcat(a[1..], b, price);
    }
  }

  /** A run where it is not, with a negative budget: nothing is selected while three items together
      are affordable. */
  lemma NegativeBudgetIsNotOptimal()
    ensures var item := Item("p", "n", 1, -1, -1);
      var items := [item, item, item];
      IsGreedy([], items, -2) && Total(items, [true, true, true]) <= -2
  {
    var item := Item("p", "n", 1, -1, -1);
    var items := [item, item, item];
    assert items[1..] == [item, item] && [item, item][1..] == [item] && [item][1..] == [];
    assert Total([item], [true]) == -1;
    assert Total([item, item], [true, true]) == -2;
    SortIsPermutation(items, ByKey(LINE_TOTAL));
    assert ByPrice(items)[0] in ByPrice(items);
  }

  method FilterBundleByBudget(items: seq<Item>, budget: int) returns (selected: seq<Item>)
    ensures IsGreedy(selected, items, budget)
  {
    selected := [];
    var runningTotal := 0;
    var sorted := ByPrice(items);
    SortSorts(items, ByKey(LINE_TOTAL));
    for i := 0 to |sorted|
      invariant |selected| <= i && selected == sorted[..|selected|]
      invariant runningTotal == Sum(selected)
      invariant selected != [] || budget >= 0 ==> runningTotal <= budget
      invariant selected != [] ==> budget >= 0 || selected[0].lineTotal <= budget
      invariant |selected| < i ==> runningTotal + sorted[|selected|].lineTotal > budget
    {
      assert |selected| < i ==> LINE_TOTAL(sorted[|selected|]) <= LINE_TOTAL(sorted[i]);
      if runningTotal + sorted[i].lineTotal <= budget {
        assert |selected| == i;
        SumAppend(selected, sorted[i]);
        selected := selected + [sorted[i]];
        runningTotal := runningTotal + sorted[i].lineTotal;
      }
    }
  }

  datatype Recommendation = Recommendation(productId: string, name: string, unitPrice: int, quantity: int)
  datatype Bundle = InvalidBudget | Bundle(items: seq<Item>, estimatedBudget: int)

  function Priced(r: Recommendation): Item {
    Item(r.productId, r.name, r.quantity, r.unitPrice, r.unitPrice * r.quantity)
  }

  function PricedAll(rs: seq<Recommendation>): (r: seq<Item>)
    ensures |r| == |rs|
  {
    seq(|rs|, i requires 0 <= i < |rs| => Priced(rs[i]))
  }

  /** What the items cost by price and quantity. */
  function Cost(items: seq<Item>): int {
    if items == [] then 0 else items[0].unitPrice * items[0].quantity + Cost(items[1..])
  }

  function RecommendedCost(rs: seq<Recommendation>): int {
    if rs == [] then 0 else rs[0].unitPrice * rs[0].quantity + RecommendedCost(rs[1..])
  }

  /** The item is one of the recommendations, at its price. */
  predicate IsRecommended(item: Item, rs: seq<Recommendation>) {
    exists i :: 0 <= i < |rs|
      && item.productId == rs[i].productId && item.name == rs[i].name
      && item.unitPrice == rs[i].unitPrice && item.quantity == rs[i].quantity
      && item.lineTotal == rs[i].unitPrice * rs[i].quantity
  }

  lemma {:induction false} SumIsCost(items: seq<Item>, rs: seq<Recommendation>)
    requires forall item :: item in items ==> IsRecommended(item, rs)
    ensures Sum(items) == Cost(items)
  {
    if items != [] {
      assert IsRecommended(items[0], rs);
      assert forall item :: item in items[1..] ==> item in items;
      SumIsCost(items[1..], rs);
    }
  }

  lemma {:induction false} CostOfAll(rs: seq<Recommendation>)
    ensures Sum(PricedAll(rs)) == RecommendedCost(rs)
  {
    if rs != [] {
      CostOfAll(rs[1..]);
      assert PricedAll(rs)[1..] == PricedAll(rs[1..]);
    }
  }

  lemma AllRecommended(items: seq<Item>, rs: seq<Recommendation>)
    requires multiset(items) <= multiset(PricedAll(rs))
    ensures forall item :: item in items ==> IsRecommended(item, rs)
  {
    var all := PricedAll(rs);
    forall item | item in items ensures IsRecommended(item, rs) {
      assert multiset(items)[item] > 0;
      assert item in all;
      var i :| 0 <= i < |all| && all[i] == item;
    }
  }

  method RecommendProductBundle(recommendations: seq<Recommendation>, budget: Option<int>) returns (b: Bundle)
    ensures b.InvalidBudget? <==> budget.Some? && budget.value < 0
    ensures b.Bundle? ==> b.estimatedBudget == Cost(b.items)
    ensures b.Bundle? ==> forall item :: item in b.items ==> IsRecommended(item, recommendations)
    ensures b.Bundle? && budget.None? ==>
      |b.items| == |recommendations| && b.estimatedBudget == RecommendedCost(recommendations)
    ensures b.Bundle? ==> b.estimatedBudget == Sum(b.items)
    ensures b.Bundle? && budget.None? ==> b.items == PricedAll(recommendations)
    ensures b.Bundle? && budget.Some? ==>
      IsGreedy(b.items, PricedAll(recommendations), budget.value) && b.estimatedBudget <= budget.value
  {
    if budget.Some? && budget.value < 0 { return InvalidBudget; }
    var items := [];
    for i := 0 to |recommendations|
      invariant items == PricedAll(recommendations[..i])
    {
      assert PricedAll(recommendations[..i + 1]) == PricedAll(recommendations[..i]) + [Priced(recommendations[i])];
      items := items + [Priced(recommendations[i])];
    }
    assert recommendations[..|recommendations|] == recommendations;
    CostOfAll(recommendations);
    if budget.Some? {
      items := FilterBundleByBudget(items, budget.value);
      GreedyComesFromItems(items, PricedAll(recommendations), budget.value, 0);
    }
    AllRecommended(items, recommendations);
    SumIsCost(items, recommendations);
    b := Bundle(items, Sum(items));
  }
}
