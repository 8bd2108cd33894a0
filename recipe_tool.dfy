/** `RecipeTool.search`: filter the catalog by diet and preparation time,
    score each survivor by pantry overlap plus a random tiebreak, and rank
    the survivors by score (descending), then time (ascending).

    The tiebreak `random.random()` in [0, 1) is an input here: one value per
    catalog recipe in [0, JitterScale), and a score is
    `overlap * JitterScale + jitter`, so scores are integers. */
module RecipeTool {
  import opened Meals
  import opened Sorting

  /** Resolution of the random tiebreak: scores are scaled by this. */
  const JitterScale: nat := 1000000

  /** The time assumed for a recipe without one, `r.get("time", 999)`. */
  const DefaultTime: int := 999

  /** The filter of the search. An empty `diet` is falsy in Python and
      disables the diet filter. */
  predicate Passes(r: Recipe, diet: string, maxTime: int) {
    && (diet == "" || r.diet == Some(diet))
    && r.time.GetOr(DefaultTime) <= maxTime
  }

  /** The copy of a surviving recipe, carrying `pantry_overlap` and `score`. */
  function Scored(r: Recipe, pantry: seq<string>, jitter: nat): Entry {
    var overlap := Overlap(r.ingredients, pantry);
    Entry(r, Some(overlap), Some(overlap * JitterScale + jitter), None)
  }

  /** The sort key `(-score, time)`. */
  function RankKey(e: Entry): Key {
    Key(-e.score.GetOr(0), e.recipe.time.GetOr(0))
  }

  /** The scored copies of the recipes among the first `n` of the catalog
      that pass the filter, in catalog order. */
  function Survivors(recipes: seq<Recipe>, jitter: seq<nat>, diet: string, pantry: seq<string>,
                     maxTime: int, n: nat): seq<Entry>
    requires n <= |recipes| == |jitter|
  {
    if n == 0 then []
    else
      Survivors(recipes, jitter, diet, pantry, maxTime, n - 1)
        + (if Passes(recipes[n - 1], diet, maxTime)
           then [Scored(recipes[n - 1], pantry, jitter[n - 1])] else [])
  }

  /** The search result when it does not fail: the survivors, stably sorted by rank. */
  function Ranked(recipes: seq<Recipe>, jitter: seq<nat>, diet: string, pantry: seq<string>,
                  maxTime: int): seq<Entry>
    requires |recipes| == |jitter|
  {
    SortByKey(Survivors(recipes, jitter, diet, pantry, maxTime, |recipes|), RankKey)
  }

  /** Some recipe passes the filter without a time (only possible when
      `maxTime >= DefaultTime`): computing its sort key raises a KeyError. */
  predicate SearchFails(recipes: seq<Recipe>, diet: string, maxTime: int) {
    exists i :: 0 <= i < |recipes| && Passes(recipes[i], diet, maxTime) && recipes[i].time.None?
  }

  predicate JitterOk(recipes: seq<Recipe>, jitter: seq<nat>) {
    |jitter| == |recipes| && forall j :: 0 <= j < |jitter| ==> jitter[j] < JitterScale
  }

  method Search(recipes: seq<Recipe>, diet: string, pantry: seq<string>, maxTime: int, jitter: seq<nat>)
    returns (r: Result<seq<Entry>>)
    requires JitterOk(recipes, jitter)
    ensures r.Err? <==> SearchFails(recipes, diet, maxTime)
    ensures r.Err? ==> r.error == MissingTime
    ensures r.Ok? ==> r.value == Ranked(recipes, jitter, diet, pantry, maxTime)
    ensures r.Ok? ==> SortedBy(r.value, RankKey)
    ensures r.Ok? ==> multiset(r.value) == multiset(Survivors(recipes, jitter, diet, pantry, maxTime, |recipes|))
  {
    var results: seq<Entry> := [];
    var timeless := false;
    var i := 0;
    while i < |recipes|
      invariant 0 <= i <= |recipes|
      invariant results == Survivors(recipes, jitter, diet, pantry, maxTime, i)
      invariant timeless <==> exists k :: 0 <= k < i && Passes(recipes[k], diet, maxTime) && recipes[k].time.None?
    {
      var rec := recipes[i];
      if Passes(rec, diet, maxTime) {
        var overlap := Overlap(rec.ingredients, pantry);
        var copy := Entry(rec, Some(overlap), Some(overlap * JitterScale + jitter[i]), None);
        results := results + [copy];
        timeless := timeless || rec.time.None?;
      }
      i := i + 1;
    }
    if timeless {
      return Err(MissingTime);
    }
    SortPerm(results, RankKey);
    SortSorted(results, RankKey);
    results := SortByKey(results, RankKey);
    r := Ok(results);
  }

  /** Exactly the recipes that pass the filter are in the result, each as its
      scored copy, with `pantry_overlap` the overlap with the pantry. */
  lemma {:induction false} SurvivorsMembers(recipes: seq<Recipe>, jitter: seq<nat>, diet: string,
                                            pantry: seq<string>, maxTime: int, n: nat, e: Entry)
    requires n <= |recipes| == |jitter|
    ensures e in Survivors(recipes, jitter, diet, pantry, maxTime, n)
        <==> exists i :: 0 <= i < n && Passes(recipes[i], diet, maxTime) && e == Scored(recipes[i], pantry, jitter[i])
  {
    if n > 0 {
      SurvivorsMembers(recipes, jitter, diet, pantry, maxTime, n - 1, e);
      var r := recipes[n - 1];
      var last := if Passes(r, diet, maxTime) then [Scored(r, pantry, jitter[n - 1])] else [];
      assert Survivors(recipes, jitter, diet, pantry, maxTime, n)
          == Survivors(recipes, jitter, diet, pantry, maxTime, n - 1) + last;
      if e in last {
        assert Passes(recipes[n - 1], diet, maxTime) && e == Scored(recipes[n - 1], pantry, jitter[n - 1]);
      }
    }
  }

  /** The ranked list holds exactly the scored copies of the recipes that
      pass the filter. */
  lemma RankedExactly(recipes: seq<Recipe>, jitter: seq<nat>, diet: string, pantry: seq<string>,
                      maxTime: int, e: Entry)
    requires |recipes| == |jitter|
    ensures e in Ranked(recipes, jitter, diet, pantry, maxTime)
        <==> exists i :: 0 <= i < |recipes| && Passes(recipes[i], diet, maxTime)
                      && e == Scored(recipes[i], pantry, jitter[i])
  {
    var s := Survivors(recipes, jitter, diet, pantry, maxTime, |recipes|);
    SortPerm(s, RankKey);
    assert e in Ranked(recipes, jitter, diet, pantry, maxTime) <==> e in multiset(s);
    SurvivorsMembers(recipes, jitter, diet, pantry, maxTime, |recipes|, e);
  }

  /** Every ranked candidate passes the filter and carries the overlap of its
      recipe with the pantry and a score of that overlap plus a jitter below
      one unit. */
  lemma RankedMembers(recipes: seq<Recipe>, jitter: seq<nat>, diet: string, pantry: seq<string>,
                      maxTime: int, e: Entry)
    requires JitterOk(recipes, jitter)
    requires e in Ranked(recipes, jitter, diet, pantry, maxTime)
    ensures Passes(e.recipe, diet, maxTime) && e.recipe in recipes
    ensures e.overlap == Some(Overlap(e.recipe.ingredients, pantry)) && e.cost.None?
    ensures e.score.Some?
    ensures e.overlap.value * JitterScale <= e.score.value < (e.overlap.value + 1) * JitterScale
  {
    var s := Survivors(recipes, jitter, diet, pantry, maxTime, |recipes|);
    SortPerm(s, RankKey);
    assert e in multiset(s);
    SurvivorsMembers(recipes, jitter, diet, pantry, maxTime, |recipes|, e);
  }

  /** Along the ranked list the pantry overlap never increases: the jitter is
      below one unit, so it only orders recipes of equal overlap. */
  lemma RankedOverlapNonIncreasing(recipes: seq<Recipe>, jitter: seq<nat>, diet: string,
                                   pantry: seq<string>, maxTime: int, i: nat, j: nat)
    requires JitterOk(recipes, jitter)
    requires i < j < |Ranked(recipes, jitter, diet, pantry, maxTime)|
    ensures var r := Ranked(recipes, jitter, diet, pantry, maxTime);
            r[i].overlap.Some? && r[j].overlap.Some? && r[i].overlap.value >= r[j].overlap.value
  {
    var r := Ranked(recipes, jitter, diet, pantry, maxTime);
    SortSorted(Survivors(recipes, jitter, diet, pantry, maxTime, |recipes|), RankKey);
    RankedMembers(recipes, jitter, diet, pantry, maxTime, r[i]);
    RankedMembers(recipes, jitter, diet, pantry, maxTime, r[j]);
    assert KeyLe(RankKey(r[i]), RankKey(r[j]));
  }

  /** Scores never increase along the ranked list, and equal scores are
      ordered by time. */
  lemma RankedTiesByTime(recipes: seq<Recipe>, jitter: seq<nat>, diet: string,
                         pantry: seq<string>, maxTime: int, i: nat, j: nat)
    requires JitterOk(recipes, jitter) && !SearchFails(recipes, diet, maxTime)
    requires i < j < |Ranked(recipes, jitter, diet, pantry, maxTime)|
    ensures var r := Ranked(recipes, jitter, diet, pantry, maxTime);
            && r[i].score.Some? && r[j].score.Some? && r[i].score.value >= r[j].score.value
            && r[i].recipe.time.Some? && r[j].recipe.time.Some?
            && (r[i].score == r[j].score ==> r[i].recipe.time.value <= r[j].recipe.time.value)
  {
    var r := Ranked(recipes, jitter, diet, pantry, maxTime);
    SortSorted(Survivors(recipes, jitter, diet, pantry, maxTime, |recipes|), RankKey);
    RankedMembers(recipes, jitter, diet, pantry, maxTime, r[i]);
    RankedMembers(recipes, jitter, diet, pantry, maxTime, r[j]);
    assert KeyLe(RankKey(r[i]), RankKey(r[j]));
  }
}
