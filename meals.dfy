/** The data model shared by the recipe search, the planner and the shopping
    list: catalog recipes, the plan entries made from them, and the two ways
    the pipeline can fail. */
module Meals {
  import opened Seqs

  datatype Option<T> = None | Some(value: T) {
    /** Python's `d.get(key, default)`. */
    function GetOr(default: T): T {
      match this
      case Some(v) => v
      case None => default
    }
  }

  /** A catalog recipe. `diet` and `time` are optional keys of the recipe
      record; `id`, `title` and `ingredients` are always present. */
  datatype Recipe = Recipe(
    id: string,
    title: string,
    ingredients: seq<string>,
    diet: Option<string>,
    time: Option<int>)

  /** A recipe record as it travels through the planner: the recipe's own
      keys plus the keys the pipeline may add to a copy of it,
      `pantry_overlap`, `score` and `estimated_cost` (cents). */
  datatype Entry = Entry(
    recipe: Recipe,
    overlap: Option<nat>,
    score: Option<int>,
    cost: Option<nat>)

  /** `MissingTime`: the sort key `x["time"]` of the search raises a KeyError.
      `EmptyPool`: `random.choice` on an empty catalog raises an IndexError. */
  datatype Error = MissingTime | EmptyPool

  datatype Result<T> = Ok(value: T) | Err(error: Error)

  /** The set of names in a list, as Python's `set(xs)`. */
  function SetOf(xs: seq<string>): set<string> {
    set x | x in xs
  }

  /** The number of distinct ingredients that are in the pantry:
      `len(set(ingredients) & set(pantry))`. */
  function Overlap(ingredients: seq<string>, pantry: seq<string>): nat {
    |SetOf(ingredients) * SetOf(pantry)|
  }

  /** The overlap counts each pantry ingredient once, however often it is
      listed: it is the length of the first-occurrence list of the
      ingredients, restricted to pantry names. */
  lemma OverlapCountsDistinctPantryNames(ingredients: seq<string>, pantry: seq<string>)
    ensures Overlap(ingredients, pantry)
         == |Only(Dedup(ingredients), pantry)|
    ensures Overlap(ingredients, pantry) <= |Dedup(ingredients)|
  {
    var d := Dedup(ingredients);
    var kept := Only(d, pantry);
    forall x ensures x in SetOf(kept) <==> x in SetOf(ingredients) * SetOf(pantry) {
      assert x in kept <==> x in d && x in pantry;
    }
    assert SetOf(kept) == SetOf(ingredients) * SetOf(pantry);
    CardOfDistinct(kept);
    assert SetOf(d) == SetOf(ingredients);
    CardOfDistinct(d);
  }

  /** A catalog recipe picked as it is, with none of the added keys. */
  function PoolPick(r: Recipe): Entry {
    Entry(r, None, None, None)
  }
}
