/** The price tool: a fixed table of unit prices per ingredient name, with a
    default for names not in the table. All amounts are in cents. */
module Prices {
  import opened Seqs

  const BasePrices: map<string, nat> := map[
    "rice" := 250, "canned beans" := 120, "tomato" := 70, "pasta" := 100,
    "olive oil" := 300, "mixed veg" := 200, "soy sauce" := 100]

  /** Price of a name missing from the table. */
  const DefaultPrice: nat := 150

  /** Cheapest and dearest unit prices the tool can give. */
  const MinPrice: nat := 70
  const MaxPrice: nat := 300

  /** `base.get(name, 1.5)`. */
  function UnitPrice(name: string): (p: nat)
    ensures MinPrice <= p <= MaxPrice
  {
    if name in BasePrices then BasePrices[name] else DefaultPrice
  }

  /** `estimate(names)`: a dict from each listed name to its unit price, one
      key per distinct name. */
  function Estimate(names: seq<string>): (m: map<string, nat>)
    ensures forall x :: x in m <==> x in names
    ensures forall x :: x in m ==> m[x] == UnitPrice(x)
  {
    map x | x in names :: UnitPrice(x)
  }

  /** The values of `m` at `keys`, added up in that order. */
  function SumAt(m: map<string, nat>, keys: seq<string>): nat
    requires forall x :: x in keys ==> x in m
  {
    if keys == [] then 0 else SumAt(m, keys[..|keys| - 1]) + m[keys[|keys| - 1]]
  }

  /** `sum(estimate(names).values())`: each distinct name is paid once, at
      its unit price. Written as a recursion over the list (a name adds its
      price only at its first occurrence); `EstimateTotalIsDictSum` shows it
      is the sum of the values of the dict `Estimate(names)`. */
  function EstimateTotal(names: seq<string>): nat {
    if names == [] then 0
    else
      var init, last := names[..|names| - 1], names[|names| - 1];
      EstimateTotal(init) + (if last in init then 0 else UnitPrice(last))
  }

  /** The unit prices of `names`, each as often as it is listed. */
  function PriceSum(names: seq<string>): nat {
    if names == [] then 0 else PriceSum(names[..|names| - 1]) + UnitPrice(names[|names| - 1])
  }

  lemma {:induction false} SumAtEstimate(m: map<string, nat>, keys: seq<string>)
    requires forall x :: x in keys ==> x in m && m[x] == UnitPrice(x)
    ensures SumAt(m, keys) == PriceSum(keys)
  {
    if keys != [] {
      SumAtEstimate(m, keys[..|keys| - 1]);
    }
  }

  /** The estimated cost is the sum of the unit prices of the distinct
      names, in first-occurrence order. */
  lemma {:induction false} EstimateTotalIsDistinctSum(names: seq<string>)
    ensures EstimateTotal(names) == PriceSum(Dedup(names))
  {
    if names != [] {
      var init, last := names[..|names| - 1], names[|names| - 1];
      EstimateTotalIsDistinctSum(init);
      assert names == init + [last];
      if last !in init {
        var d := Dedup(init) + [last];
        assert Dedup(names) == d;
        assert d[..|d| - 1] == Dedup(init);
      }
    }
  }

  /** The recursion is the dict sum: the keys of `estimate(names)` are the
      distinct names in first-occurrence order, each mapped to its price. */
  lemma EstimateTotalIsDictSum(names: seq<string>)
    ensures EstimateTotal(names) == SumAt(Estimate(names), Dedup(names))
  {
    EstimateTotalIsDistinctSum(names);
    SumAtEstimate(Estimate(names), Dedup(names));
  }

  /** A name listed twice is paid once: listing everything twice costs the same. */
  lemma EstimateTotalIgnoresRepeats(names: seq<string>)
    ensures EstimateTotal(names + names) == EstimateTotal(names)
  {
    EstimateTotalIsDistinctSum(names);
    EstimateTotalIsDistinctSum(names + names);
    DedupAbsorbs(names, names);
  }

  lemma {:induction false} PriceSumBounds(names: seq<string>)
    ensures MinPrice * |names| <= PriceSum(names) <= MaxPrice * |names|
  {
    if names != [] {
      PriceSumBounds(names[..|names| - 1]);
    }
  }

  /** Each distinct name costs between the cheapest and the dearest unit
      price; in particular a non-empty list never costs nothing. */
  lemma {:induction false} EstimateTotalBounds(names: seq<string>)
    ensures MinPrice * |Dedup(names)| <= EstimateTotal(names) <= MaxPrice * |Dedup(names)|
    ensures names != [] ==> EstimateTotal(names) >= MinPrice
  {
    EstimateTotalIsDistinctSum(names);
    PriceSumBounds(Dedup(names));
    if names != [] {
      assert names[0] in Dedup(names);
    }
  }
}
