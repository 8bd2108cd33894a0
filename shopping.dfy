/** `ShoppingListAgent.build_shopping_list`: count how many times each
    ingredient occurs across the plan, drop what is in the pantry, and price
    the remaining items, each distinct item once. */
module Shopping {
  import opened Seqs
  import opened Meals
  import opened Prices

  /** The returned dict `{"items": ..., "prices": ..., "estimated_total": ...}`.
      A Python dict also has a key order; `order` is the key order of
      `items`, which `prices` shares. */
  datatype ShoppingList = ShoppingList(
    items: map<string, nat>,
    order: seq<string>,
    prices: map<string, nat>,
    total: nat)

  /** The ingredient lists of the meals, one after the other. */
  function AllIngredients(plan: seq<Entry>): seq<string> {
    if plan == [] then []
    else AllIngredients(plan[..|plan| - 1]) + plan[|plan| - 1].recipe.ingredients
  }

  /** The items to buy in dict order: the ingredients in order of first
      occurrence, without those in the pantry. */
  function ItemOrder(plan: seq<Entry>, pantry: seq<string>): seq<string> {
    Without(Dedup(AllIngredients(plan)), pantry)
  }

  /** What the shopping list costs. */
  function ShoppingTotal(plan: seq<Entry>, pantry: seq<string>): nat {
    EstimateTotal(ItemOrder(plan, pantry))
  }

  method BuildShoppingList(plan: seq<Entry>, pantry: seq<string>) returns (list: ShoppingList)
    ensures forall x :: x in list.items <==> x in AllIngredients(plan) && x !in pantry
    ensures forall x :: x in list.items ==> list.items[x] == Count(AllIngredients(plan), x)
    ensures list.order == ItemOrder(plan, pantry) && NoDups(list.order)
    ensures forall x :: x in list.order <==> x in list.items
    ensures list.prices == Estimate(list.order)
    ensures forall x :: x in list.prices <==> x in list.items
    ensures forall x :: x in list.prices ==> list.prices[x] == UnitPrice(x)
    ensures list.total == ShoppingTotal(plan, pantry) == PriceSum(list.order)
  {
    var agg, aggOrder := Tally(plan);
    var shopping := map x | x in agg && x !in pantry :: agg[x];
    var order := Without(aggOrder, pantry);
    var prices := Estimate(order);
    EstimateTotalIsDictSum(order);
    EstimateTotalIsDistinctSum(order);
    DedupOfDistinct(order);
    list := ShoppingList(shopping, order, prices, SumAt(prices, order));
  }

  /** The aggregation loops (agent.py:151-154): `agg` counts every ingredient
      of every meal; `aggOrder` is the key order of `agg`. */
  method Tally(plan: seq<Entry>) returns (agg: map<string, nat>, aggOrder: seq<string>)
    ensures aggOrder == Dedup(AllIngredients(plan))
    ensures forall x :: x in agg <==> x in AllIngredients(plan)
    ensures forall x :: x in agg ==> agg[x] == Count(AllIngredients(plan), x)
  {
    agg, aggOrder := map[], [];
    var i := 0;
    while i < |plan|
      invariant 0 <= i <= |plan|
      invariant aggOrder == Dedup(AllIngredients(plan[..i]))
      invariant forall x :: x in agg <==> x in AllIngredients(plan[..i])
      invariant forall x :: x in agg ==> agg[x] == Count(AllIngredients(plan[..i]), x)
    {
      assert plan[..i + 1][..i] == plan[..i];
      agg, aggOrder := TallyMeal(agg, aggOrder, plan[i].recipe.ingredients, AllIngredients(plan[..i]));
      i := i + 1;
    }
    assert plan[..i] == plan;
  }

  /** The inner loop: adds one meal's ingredients to counts `agg` (key order
      `aggOrder`) that hold for the ingredients `seen` so far. */
  method TallyMeal(agg0: map<string, nat>, aggOrder0: seq<string>, ings: seq<string>, ghost seen: seq<string>)
    returns (agg: map<string, nat>, aggOrder: seq<string>)
    requires aggOrder0 == Dedup(seen)
    requires forall x :: x in agg0 <==> x in seen
    requires forall x :: x in agg0 ==> agg0[x] == Count(seen, x)
    ensures aggOrder == Dedup(seen + ings)
    ensures forall x :: x in agg <==> x in seen + ings
    ensures forall x :: x in agg ==> agg[x] == Count(seen + ings, x)
  {
    agg, aggOrder := agg0, aggOrder0;
    ghost var counted := seen;
    var j := 0;
    while j < |ings|
      invariant 0 <= j <= |ings|
      invariant counted == seen + ings[..j]
      invariant aggOrder == Dedup(counted)
      invariant forall x :: x in agg <==> x in counted
      invariant forall x :: x in agg ==> agg[x] == Count(counted, x)
    {
      var ing := ings[j];
      PrefixSnoc(seen, ings, j);
      TallyStep(counted, ing);
      if ing !in agg {
        aggOrder := aggOrder + [ing];
      }
      agg := agg[ing := (if ing in agg then agg[ing] else 0) + 1];
      counted := counted + [ing];
      j := j + 1;
    }
    assert ings[..j] == ings;
  }

  /** Counting one more ingredient: it is appended to the key order if it is
      new, and its count goes up by one. */
  lemma {:induction false} TallyStep(seen: seq<string>, ing: string)
    ensures Dedup(seen + [ing]) == Dedup(seen) + (if ing in seen then [] else [ing])
    ensures forall x :: x in seen + [ing] <==> x in seen || x == ing
    ensures forall x :: Count(seen + [ing], x) == Count(seen, x) + (if x == ing then 1 else 0)
  {
    assert (seen + [ing])[..|seen|] == seen;
  }

  lemma {:induction false} AllIngredientsAppend(a: seq<Entry>, b: seq<Entry>)
    ensures AllIngredients(a + b) == AllIngredients(a) + AllIngredients(b)
  {
    if b == [] {
      assert a + b == a;
    } else {
      var p := b[..|b| - 1];
      assert (a + b)[..|a + b| - 1] == a + p;
      AllIngredientsAppend(a, p);
    }
  }

  /** Quantities do not reach the price: planning every meal twice doubles
      every count but leaves the items and the total as they were. */
  lemma ShoppingIgnoresQuantities(plan: seq<Entry>, pantry: seq<string>, x: string)
    ensures ItemOrder(plan + plan, pantry) == ItemOrder(plan, pantry)
    ensures ShoppingTotal(plan + plan, pantry) == ShoppingTotal(plan, pantry)
    ensures Count(AllIngredients(plan + plan), x) == 2 * Count(AllIngredients(plan), x)
  {
    var all := AllIngredients(plan);
    AllIngredientsAppend(plan, plan);
    DedupAbsorbs(all, all);
    CountAppend(all, all, x);
  }

  /** Every item costs between the cheapest and the dearest unit price, so
      the total lies between those prices times the number of items. */
  lemma ShoppingTotalBounds(plan: seq<Entry>, pantry: seq<string>)
    ensures var n := |ItemOrder(plan, pantry)|;
      MinPrice * n <= ShoppingTotal(plan, pantry) <= MaxPrice * n
  {
    var order := ItemOrder(plan, pantry);
    DedupOfDistinct(order);
    EstimateTotalBounds(order);
  }

  /** A pantry that covers every ingredient leaves nothing to buy. */
  lemma FullPantryBuysNothing(plan: seq<Entry>, pantry: seq<string>)
    requires forall x :: x in AllIngredients(plan) ==> x in pantry
    ensures ItemOrder(plan, pantry) == [] && ShoppingTotal(plan, pantry) == 0
  {
    var order := ItemOrder(plan, pantry);
    CardOfDistinct(order);
    assert (set x | x in order) == {};
  }
}
