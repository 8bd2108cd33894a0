/** `PlannerAgent.generate_weekly_plan`: rank the candidates, fill seven
    days from them (falling back to random catalog picks once they run out),
    then, while the plan is over budget, replace its most expensive meal with
    the least preferred candidate not yet planned, at most five times; last,
    recompute every entry's pantry overlap.

    The random fallback `random.choice(recipes)` is an input: one draw per
    day, and the pick of day `k` is `recipes[draws[k] % |recipes|]`. */
module Planner {
  import opened Seqs
  import opened Sorting
  import opened Meals
  import opened Prices
  import opened RecipeTool

  /** Days in a weekly plan. */
  const PlanLength: nat := 7
  /** Repair attempts before giving up on the budget. */
  const MaxRepairAttempts: nat := 5
  /** What an entry without `estimated_cost` adds to the total (3.0). */
  const MissingCostCharge: nat := 300

  /** Defaults of `user_profile.get("diet", ...)` and `constraints.get(...)`. */
  const DefaultDiet: string := "vegetarian"
  const DefaultMaxTime: int := 60
  const DefaultBudget: int := 6000

  /** The keys the planner reads; `None` is an absent key. */
  datatype Profile = Profile(diet: Option<string>)
  datatype Constraints = Constraints(maxTime: Option<int>, budget: Option<int>)

  /** The planner's result, `{"plan": ..., "estimated_total": ...}`. */
  datatype WeeklyPlan = WeeklyPlan(plan: seq<Entry>, total: int)

  function Diet(p: Profile): string { p.diet.GetOr(DefaultDiet) }
  function MaxTime(c: Constraints): int { c.maxTime.GetOr(DefaultMaxTime) }
  function Budget(c: Constraints): int { c.budget.GetOr(DefaultBudget) }

  /** A copy of a candidate with `estimated_cost` set from the price tool. */
  function Costed(e: Entry): Entry {
    e.(cost := Some(EstimateTotal(e.recipe.ingredients)))
  }

  /** What an entry adds to the plan total: `p.get("estimated_cost", 3.0)`. */
  function Charge(e: Entry): nat { e.cost.GetOr(MissingCostCharge) }

  function PlanTotal(plan: seq<Entry>): nat {
    if plan == [] then 0 else PlanTotal(plan[..|plan| - 1]) + Charge(plan[|plan| - 1])
  }

  /** The repair sort key: `estimated_cost` descending, 0 when absent. */
  function CostKey(e: Entry): Key { Key(0 - e.cost.GetOr(0), 0) }

  /** `[p["id"] for p in plan]`. */
  function Ids(plan: seq<Entry>): seq<string> {
    seq(|plan|, k requires 0 <= k < |plan| => plan[k].recipe.id)
  }

  /** Python's `plan[:n]`. */
  function Prefix(plan: seq<Entry>, n: nat): seq<Entry> {
    if |plan| <= n then plan else plan[..n]
  }

  /** The last of the first `n` candidates whose id is not in `ids`. */
  function LastAbsent(cands: seq<Entry>, ids: seq<string>, n: nat): (r: Option<nat>)
    requires n <= |cands|
    ensures r.Some? ==> r.value < n
  {
    if n == 0 then None
    else if cands[n - 1].recipe.id !in ids then Some(n - 1)
    else LastAbsent(cands, ids, n - 1)
  }

  /** `LastAbsent` finds exactly the last absent candidate: everything after
      it is present, and it finds none only when every candidate is present. */
  lemma {:induction false} LastAbsentSpec(cands: seq<Entry>, ids: seq<string>, n: nat)
    requires n <= |cands|
    ensures var r := LastAbsent(cands, ids, n);
      && (r.Some? ==> cands[r.value].recipe.id !in ids)
      && (r.Some? ==> forall j :: r.value < j < n ==> cands[j].recipe.id in ids)
      && (r.None? ==> forall j :: 0 <= j < n ==> cands[j].recipe.id in ids)
  {
    if n > 0 && cands[n - 1].recipe.id in ids {
      LastAbsentSpec(cands, ids, n - 1);
    }
  }

  /** One repair attempt: stable sort by cost descending, then overwrite the
      first entry with a costed copy of the last candidate that is not
      planned, if there is one. */
  function RepairStep(plan: seq<Entry>, cands: seq<Entry>): seq<Entry> {
    var sorted := SortByKey(plan, CostKey);
    match LastAbsent(cands, Ids(sorted), |cands|)
    case None => sorted
    case Some(k) => if sorted == [] then sorted else sorted[0 := Costed(cands[k])]
  }

  /** The plan after `n` repair attempts. */
  function Steps(plan: seq<Entry>, cands: seq<Entry>, n: nat): seq<Entry> {
    if n == 0 then plan else RepairStep(Steps(plan, cands, n - 1), cands)
  }

  /** The plan after `n` repair attempts still costs more than `budget`. */
  predicate OverBudget(plan: seq<Entry>, cands: seq<Entry>, budget: int, n: nat) {
    PlanTotal(Steps(plan, cands, n)) > budget
  }

  /** `n` is the number of attempts the repair loop makes: at most five,
      each begun while over budget, and fewer than five only when the plan
      after them is within budget. */
  predicate RepairStops(plan: seq<Entry>, cands: seq<Entry>, budget: int, n: nat) {
    && n <= MaxRepairAttempts
    && (forall a :: 0 <= a < n ==> OverBudget(plan, cands, budget, a))
    && (n < MaxRepairAttempts ==> !OverBudget(plan, cands, budget, n))
  }

  /** The stop rule leaves no choice: at most one attempt count meets it. */
  lemma RepairStopsUnique(plan: seq<Entry>, cands: seq<Entry>, budget: int, n: nat, m: nat)
    requires RepairStops(plan, cands, budget, n) && RepairStops(plan, cands, budget, m)
    ensures n == m
  {
  }

  /** The plan the selection loop builds. */
  function InitialPlan(cands: seq<Entry>, pool: seq<Recipe>, draws: seq<nat>): seq<Entry>
    requires |draws| == PlanLength
    requires |cands| >= PlanLength || |pool| > 0
  {
    seq(PlanLength, k requires 0 <= k < PlanLength =>
      if k < |cands| then Costed(cands[k]) else PoolPick(pool[draws[k] % |pool|]))
  }

  /** Every entry with `pantry_overlap` recomputed against the pantry. */
  function WithOverlap(plan: seq<Entry>, pantry: seq<string>): seq<Entry> {
    seq(|plan|, k requires 0 <= k < |plan| =>
      plan[k].(overlap := Some(Overlap(plan[k].recipe.ingredients, pantry))))
  }

  /** An entry is a costed copy of a ranked candidate or an untouched catalog recipe. */
  predicate FromSource(e: Entry, cands: seq<Entry>, pool: seq<Recipe>) {
    || (exists k :: 0 <= k < |cands| && e == Costed(cands[k]))
    || (exists j :: 0 <= j < |pool| && e == PoolPick(pool[j]))
  }

  /** The selection loop (agent.py:108-120). */
  method Select(cands: seq<Entry>, pool: seq<Recipe>, draws: seq<nat>) returns (r: Result<seq<Entry>>)
    requires |draws| == PlanLength
    ensures r.Err? <==> |cands| < PlanLength && |pool| == 0
    ensures r.Err? ==> r.error == EmptyPool
    ensures r.Ok? ==> |r.value| == PlanLength
    ensures r.Ok? ==> forall k :: 0 <= k < PlanLength && k < |cands| ==> r.value[k] == Costed(cands[k])
    ensures r.Ok? ==> forall k :: |cands| <= k < PlanLength ==> r.value[k] == PoolPick(pool[draws[k] % |pool|])
    ensures r.Ok? ==> r.value == InitialPlan(cands, pool, draws)
  {
    var plan: seq<Entry> := [];
    var i := 0;
    var cap := if PlanLength >= 2 * |cands| then PlanLength else 2 * |cands|;
    while |plan| < PlanLength && i < cap
      invariant 0 <= i <= PlanLength && |plan| == i
      invariant i < PlanLength ==> i < cap
      invariant |cands| < i ==> |pool| > 0
      invariant forall k :: 0 <= k < i && k < |cands| ==> plan[k] == Costed(cands[k])
      invariant forall k :: |cands| <= k < i ==> |pool| > 0 && plan[k] == PoolPick(pool[draws[k] % |pool|])
    {
      if i < |cands| {
        plan := plan + [Costed(cands[i])];
      } else {
        if |pool| == 0 {
          return Err(EmptyPool);
        }
        plan := plan + [PoolPick(pool[draws[i] % |pool|])];
      }
      i := i + 1;
    }
    plan := Prefix(plan, PlanLength);
    r := Ok(plan);
  }

  /** The replacement search `for c in all_candidates[::-1]` (agent.py:130-135). */
  method FindReplacement(cands: seq<Entry>, plan: seq<Entry>) returns (k: Option<nat>)
    ensures k.Some? ==> k.value < |cands| && cands[k.value].recipe.id !in Ids(plan)
    ensures k.Some? ==> forall j :: k.value < j < |cands| ==> cands[j].recipe.id in Ids(plan)
    ensures k.None? ==> forall j :: 0 <= j < |cands| ==> cands[j].recipe.id in Ids(plan)
    ensures k == LastAbsent(cands, Ids(plan), |cands|)
  {
    var ids := Ids(plan);
    LastAbsentSpec(cands, ids, |cands|);
    var j := |cands|;
    while j > 0
      invariant 0 <= j <= |cands|
      invariant LastAbsent(cands, ids, |cands|) == LastAbsent(cands, ids, j)
    {
      j := j - 1;
      if cands[j].recipe.id !in ids {
        return Some(j);
      }
    }
    return None;
  }

  /** The repair loop (agent.py:123-138). */
  method Repair(plan0: seq<Entry>, cands: seq<Entry>, budget: int)
    returns (plan: seq<Entry>, total: nat, attempts: nat)
    requires |plan0| > 0
    ensures attempts <= MaxRepairAttempts
    ensures plan == Steps(plan0, cands, attempts) && |plan| == |plan0|
    ensures total == PlanTotal(plan)
    ensures forall a :: 0 <= a < attempts ==> OverBudget(plan0, cands, budget, a)
    ensures attempts < MaxRepairAttempts ==> total <= budget
    ensures PlanTotal(plan0) <= budget ==> attempts == 0 && plan == plan0
    ensures RepairStops(plan0, cands, budget, attempts)
  {
    plan := plan0;
    total := PlanTotal(plan);
    attempts := 0;
    while total > budget && attempts < MaxRepairAttempts
      invariant attempts <= MaxRepairAttempts
      invariant plan == Steps(plan0, cands, attempts) && |plan| == |plan0|
      invariant total == PlanTotal(plan)
      invariant forall a :: 0 <= a < attempts ==> OverBudget(plan0, cands, budget, a)
      decreases MaxRepairAttempts - attempts
    {
      assert OverBudget(plan0, cands, budget, attempts);
      StepsNext(plan0, cands, attempts, budget);
      plan := RepairAttempt(plan, cands);
      total := PlanTotal(plan);
      StepsSucc(plan0, cands, attempts);
      attempts := attempts + 1;
    }
    if attempts > 0 {
      assert OverBudget(plan0, cands, budget, 0);
    }
    assert attempts < MaxRepairAttempts ==> !OverBudget(plan0, cands, budget, attempts);
  }

  /** One pass of the repair loop body (agent.py:128-135): sort the plan by cost,
      then overwrite its first entry with the replacement, if any. */
  method RepairAttempt(plan: seq<Entry>, cands: seq<Entry>) returns (next: seq<Entry>)
    requires |plan| > 0
    ensures next == RepairStep(plan, cands)
    ensures |next| == |plan|
  {
    next := SortByKey(plan, CostKey);
    var k := FindReplacement(cands, next);
    RepairStepUnfold(plan, cands, k);
    if k.Some? {
      next := next[0 := Costed(cands[k.value])];
    }
    RepairStepLength(plan, cands);
  }

  lemma StepsNext(plan0: seq<Entry>, cands: seq<Entry>, n: nat, budget: int)
    requires forall a :: 0 <= a < n ==> OverBudget(plan0, cands, budget, a)
    requires OverBudget(plan0, cands, budget, n)
    ensures forall a :: 0 <= a < n + 1 ==> OverBudget(plan0, cands, budget, a)
  {
  }

  lemma StepsSucc(plan0: seq<Entry>, cands: seq<Entry>, n: nat)
    ensures Steps(plan0, cands, n + 1) == RepairStep(Steps(plan0, cands, n), cands)
  {
  }

  /** The final loop that writes `pantry_overlap` into each entry (agent.py:141-142). */
  method RefreshOverlap(plan: seq<Entry>, pantry: seq<string>) returns (out: seq<Entry>)
    ensures |out| == |plan|
    ensures forall k :: 0 <= k < |plan| ==>
      out[k].overlap == Some(Overlap(plan[k].recipe.ingredients, pantry))
      && out[k].recipe == plan[k].recipe && out[k].cost == plan[k].cost && out[k].score == plan[k].score
    ensures out == WithOverlap(plan, pantry)
  {
    out := plan;
    var i := 0;
    while i < |out|
      invariant 0 <= i <= |out| == |plan|
      invariant forall k :: 0 <= k < i ==> out[k] == plan[k].(overlap := Some(Overlap(plan[k].recipe.ingredients, pantry)))
      invariant forall k :: i <= k < |out| ==> out[k] == plan[k]
    {
      out := out[i := out[i].(overlap := Some(Overlap(out[i].recipe.ingredients, pantry)))];
      i := i + 1;
    }
  }

  /** The whole planner: search, select, repair, recompute overlaps. */
  method GenerateWeeklyPlan(recipes: seq<Recipe>, profile: Profile, pantry: seq<string>,
                            constraints: Constraints, jitter: seq<nat>, draws: seq<nat>)
    returns (r: Result<WeeklyPlan>)
    requires JitterOk(recipes, jitter) && |draws| == PlanLength
    ensures r.Err? <==> |recipes| == 0 || SearchFails(recipes, Diet(profile), MaxTime(constraints))
    ensures r.Err? ==> r.error == if SearchFails(recipes, Diet(profile), MaxTime(constraints)) then MissingTime else EmptyPool
    ensures r.Ok? ==> |r.value.plan| == PlanLength && r.value.total == PlanTotal(r.value.plan)
    ensures r.Ok? ==> forall k :: 0 <= k < |r.value.plan| ==>
      var e := r.value.plan[k];
      && e.overlap == Some(Overlap(e.recipe.ingredients, pantry))
      && (e.cost.Some? ==> e.cost.value == EstimateTotal(e.recipe.ingredients)
                           && Passes(e.recipe, Diet(profile), MaxTime(constraints)))
      && (e.cost.None? ==> e.recipe in recipes)
    ensures r.Ok? ==>
      var ranked := Ranked(recipes, jitter, Diet(profile), pantry, MaxTime(constraints));
      var init := InitialPlan(ranked, recipes, draws);
      && (PlanTotal(init) <= Budget(constraints) ==> r.value.plan == WithOverlap(init, pantry))
      && exists n :: RepairStops(init, ranked, Budget(constraints), n)
                  && r.value.plan == WithOverlap(Steps(init, ranked, n), pantry)
  {
    var diet, maxTime, budget := Diet(profile), MaxTime(constraints), Budget(constraints);
    var search := Search(recipes, diet, pantry, maxTime, jitter);
    if search.Err? {
      return Err(search.error);
    }
    var ranked := search.value;
    var selected := Select(ranked, recipes, draws);
    if selected.Err? {
      return Err(selected.error);
    }
    var init := selected.value;
    var plan, total, attempts := Repair(init, ranked, budget);
    var final := RefreshOverlap(plan, pantry);
    WithOverlapKeepsTotal(plan, pantry);
    InitialPlanFromSource(ranked, recipes, draws);
    StepsFromSource(init, ranked, recipes, attempts);
    PlannedEntries(recipes, jitter, diet, pantry, maxTime, plan);
    assert RepairStops(init, ranked, budget, attempts);
    r := Ok(WeeklyPlan(final, total));
  }

  lemma InitialPlanFromSource(cands: seq<Entry>, pool: seq<Recipe>, draws: seq<nat>)
    requires |draws| == PlanLength && (|cands| >= PlanLength || |pool| > 0)
    ensures forall e :: e in InitialPlan(cands, pool, draws) ==> FromSource(e, cands, pool)
  {
    var init := InitialPlan(cands, pool, draws);
    forall e | e in init ensures FromSource(e, cands, pool) {
      var k :| 0 <= k < |init| && init[k] == e;
      if k < |cands| {
        assert e == Costed(cands[k]);
      } else {
        assert e == PoolPick(pool[draws[k] % |pool|]);
      }
    }
  }

  /** A planned entry with a cost is a costed ranked candidate, so it passed
      the filter; one without is an untouched catalog recipe. */
  lemma PlannedEntry(recipes: seq<Recipe>, jitter: seq<nat>, diet: string, pantry: seq<string>,
                     maxTime: int, e: Entry)
    requires JitterOk(recipes, jitter)
    requires FromSource(e, Ranked(recipes, jitter, diet, pantry, maxTime), recipes)
    ensures e.cost.Some? ==> e.cost.value == EstimateTotal(e.recipe.ingredients) && Passes(e.recipe, diet, maxTime)
    ensures e.cost.None? ==> e.recipe in recipes
  {
    var ranked := Ranked(recipes, jitter, diet, pantry, maxTime);
    if c :| 0 <= c < |ranked| && e == Costed(ranked[c]) {
      RankedMembers(recipes, jitter, diet, pantry, maxTime, ranked[c]);
    } else {
      var j :| 0 <= j < |recipes| && e == PoolPick(recipes[j]);
    }
  }

  /** `PlannedEntry` for every slot of a plan. */
  lemma PlannedEntries(recipes: seq<Recipe>, jitter: seq<nat>, diet: string, pantry: seq<string>,
                       maxTime: int, plan: seq<Entry>)
    requires JitterOk(recipes, jitter)
    requires forall e :: e in plan ==> FromSource(e, Ranked(recipes, jitter, diet, pantry, maxTime), recipes)
    ensures forall k :: 0 <= k < |plan| ==>
      && (plan[k].cost.Some? ==> plan[k].cost.value == EstimateTotal(plan[k].recipe.ingredients)
                                 && Passes(plan[k].recipe, diet, maxTime))
      && (plan[k].cost.None? ==> plan[k].recipe in recipes)
  {
    forall k | 0 <= k < |plan|
      ensures plan[k].cost.Some? ==> plan[k].cost.value == EstimateTotal(plan[k].recipe.ingredients)
                                     && Passes(plan[k].recipe, diet, maxTime)
      ensures plan[k].cost.None? ==> plan[k].recipe in recipes
    {
      assert plan[k] in plan;
      PlannedEntry(recipes, jitter, diet, pantry, maxTime, plan[k]);
    }
  }

  lemma WithOverlapKeepsTotal(plan: seq<Entry>, pantry: seq<string>)
    ensures PlanTotal(WithOverlap(plan, pantry)) == PlanTotal(plan)
  {
    if plan != [] {
      var p := plan[..|plan| - 1];
      assert WithOverlap(plan, pantry)[..|plan| - 1] == WithOverlap(p, pantry);
      WithOverlapKeepsTotal(p, pantry);
    }
  }

  lemma {:induction false} StepsLength(plan: seq<Entry>, cands: seq<Entry>, n: nat)
    ensures |Steps(plan, cands, n)| == |plan|
  {
    if n > 0 {
      StepsLength(plan, cands, n - 1);
      RepairStepLength(Steps(plan, cands, n - 1), cands);
    }
  }

  lemma RepairStepUnfold(plan: seq<Entry>, cands: seq<Entry>, k: Option<nat>)
    requires |plan| > 0
    requires k == LastAbsent(cands, Ids(SortByKey(plan, CostKey)), |cands|)
    ensures k.Some? ==> k.value < |cands| && |SortByKey(plan, CostKey)| == |plan|
    ensures RepairStep(plan, cands)
         == if k.Some? then SortByKey(plan, CostKey)[0 := Costed(cands[k.value])] else SortByKey(plan, CostKey)
  {
    SortPerm(plan, CostKey);
  }

  lemma RepairStepLength(plan: seq<Entry>, cands: seq<Entry>)
    ensures |RepairStep(plan, cands)| == |plan|
  {
    SortPerm(plan, CostKey);
  }

  lemma IdsOfPermutation(a: seq<Entry>, b: seq<Entry>, x: string)
    requires multiset(a) == multiset(b)
    ensures x in Ids(a) <==> x in Ids(b)
  {
    if x in Ids(a) {
      var i :| 0 <= i < |a| && Ids(a)[i] == x;
      assert a[i] in multiset(b);
      var j :| 0 <= j < |b| && b[j] == a[i];
      assert Ids(b)[j] == x;
    }
    if x in Ids(b) {
      var j :| 0 <= j < |b| && Ids(b)[j] == x;
      assert b[j] in multiset(a);
      var i :| 0 <= i < |a| && a[i] == b[j];
      assert Ids(a)[i] == x;
    }
  }

  /** One repair attempt: the plan is stably sorted by cost, descending with
      a missing cost counting as 0; only the first slot may then change, to
      a costed copy of the last candidate whose id is not planned, and it
      stays as sorted when every candidate is planned. */
  lemma RepairStepShape(plan: seq<Entry>, cands: seq<Entry>)
    requires |plan| > 0
    ensures var s, r := SortByKey(plan, CostKey), RepairStep(plan, cands);
      && |r| == |plan| && |s| == |plan|
      && multiset(s) == multiset(plan)
      && (forall i, j :: 0 <= i < j < |s| ==> s[i].cost.GetOr(0) >= s[j].cost.GetOr(0))
      && (forall k :: KeyClass(s, CostKey, k) == KeyClass(plan, CostKey, k))
      && (forall j :: 1 <= j < |r| ==> r[j] == s[j])
      && match LastAbsent(cands, Ids(plan), |cands|)
         case None => r == s
         case Some(k) =>
           && r[0] == Costed(cands[k])
           && cands[k].recipe.id !in Ids(plan)
           && forall j :: k < j < |cands| ==> cands[j].recipe.id in Ids(plan)
  {
    var s := SortByKey(plan, CostKey);
    SortPerm(plan, CostKey);
    SortSorted(plan, CostKey);
    forall k ensures KeyClass(s, CostKey, k) == KeyClass(plan, CostKey, k) {
      SortStable(plan, CostKey, k);
    }
    forall x ensures x in Ids(s) <==> x in Ids(plan) {
      IdsOfPermutation(s, plan, x);
    }
    LastAbsentSameIds(cands, Ids(s), Ids(plan), |cands|);
    LastAbsentSpec(cands, Ids(plan), |cands|);
  }

  lemma {:induction false} LastAbsentSameIds(cands: seq<Entry>, a: seq<string>, b: seq<string>, n: nat)
    requires n <= |cands|
    requires forall x :: x in a <==> x in b
    ensures LastAbsent(cands, a, n) == LastAbsent(cands, b, n)
  {
    if n > 0 {
      LastAbsentSameIds(cands, a, b, n - 1);
    }
  }

  /** An entry after a repair attempt was in the plan before or is a costed
      copy of a candidate. */
  lemma RepairStepMembers(plan: seq<Entry>, cands: seq<Entry>, e: Entry)
    requires e in RepairStep(plan, cands)
    ensures e in plan || exists k :: 0 <= k < |cands| && e == Costed(cands[k])
  {
    var s := SortByKey(plan, CostKey);
    SortPerm(plan, CostKey);
    var found := LastAbsent(cands, Ids(s), |cands|);
    if found.None? || s == [] {
      assert RepairStep(plan, cands) == s;
      assert e in multiset(plan);
    } else {
      var r := s[0 := Costed(cands[found.value])];
      assert RepairStep(plan, cands) == r;
      var i :| 0 <= i < |r| && r[i] == e;
      if i > 0 {
        assert e == s[i];
        assert e in multiset(plan);
      }
    }
  }

  /** Repair only ever brings in costed copies of ranked candidates, so
      every entry stays a costed candidate or an untouched catalog recipe. */
  lemma {:induction false} StepsFromSource(plan: seq<Entry>, cands: seq<Entry>, pool: seq<Recipe>, n: nat)
    requires forall e :: e in plan ==> FromSource(e, cands, pool)
    ensures forall e :: e in Steps(plan, cands, n) ==> FromSource(e, cands, pool)
  {
    if n > 0 {
      StepsFromSource(plan, cands, pool, n - 1);
      var p := Steps(plan, cands, n - 1);
      forall e | e in RepairStep(p, cands) ensures FromSource(e, cands, pool) {
        RepairStepMembers(p, cands, e);
      }
    }
  }

  /** No meal is free when every entry has a charge and every candidate has
      ingredients; then the total stays positive through every repair
      attempt, so a zero budget uses all five attempts. */
  lemma {:induction false} StepsStayPositive(plan: seq<Entry>, cands: seq<Entry>, n: nat)
    requires |plan| > 0
    requires forall e :: e in plan ==> Charge(e) > 0
    requires forall c :: c in cands ==> c.recipe.ingredients != []
    ensures forall e :: e in Steps(plan, cands, n) ==> Charge(e) > 0
    ensures PlanTotal(Steps(plan, cands, n)) > 0
  {
    if n > 0 {
      StepsStayPositive(plan, cands, n - 1);
      var p := Steps(plan, cands, n - 1);
      forall e | e in RepairStep(p, cands) ensures Charge(e) > 0 {
        RepairStepMembers(p, cands, e);
        if e !in p {
          var k :| 0 <= k < |cands| && e == Costed(cands[k]);
          assert cands[k] in cands;
          EstimateTotalBounds(cands[k].recipe.ingredients);
        }
      }
    }
    var q := Steps(plan, cands, n);
    StepsLength(plan, cands, n);
    assert q[|q| - 1] in q;
  }

  lemma {:induction false} PlanTotalAppend(a: seq<Entry>, b: seq<Entry>)
    ensures PlanTotal(a + b) == PlanTotal(a) + PlanTotal(b)
  {
    if b == [] {
      assert a + b == a;
    } else {
      assert (a + b)[..|a + b| - 1] == a + b[..|b| - 1];
      assert (a + b)[|a + b| - 1] == b[|b| - 1];
      PlanTotalAppend(a, b[..|b| - 1]);
    }
  }

  /** The total does not depend on the order of the plan, so the repair
      sort alone leaves it as it was. */
  lemma {:induction false} PlanTotalPerm(a: seq<Entry>, b: seq<Entry>)
    requires multiset(a) == multiset(b)
    ensures PlanTotal(a) == PlanTotal(b)
    decreases |a|
  {
    if a != [] {
      var x, a' := a[|a| - 1], a[..|a| - 1];
      assert a == a' + [x];
      assert x in multiset(b);
      var j :| 0 <= j < |b| && b[j] == x;
      var b' := DropAt(b, j);
      DropAtMultiset(b, j);
      assert multiset(a') == multiset(a) - multiset{x};
      PlanTotalPerm(a', b');
      DropAtTotal(b, j);
    }
  }

  /** `b` without slot `j`: its last entry moves into slot `j`. */
  function DropAt(b: seq<Entry>, j: nat): seq<Entry>
    requires j < |b|
  {
    if j == |b| - 1 then b[..j] else b[..|b| - 1][j := b[|b| - 1]]
  }

  /** Dropping slot `j` removes one copy of its entry. */
  lemma DropAtMultiset(b: seq<Entry>, j: nat)
    requires j < |b|
    ensures multiset(DropAt(b, j)) == multiset(b) - multiset{b[j]}
  {
    var n := |b| - 1;
    assert b == b[..n] + [b[n]];
    if j < n {
      assert multiset(b[..n][j := b[n]]) == multiset(b[..n]) - multiset{b[j]} + multiset{b[n]};
    }
  }

  /** Dropping slot `j` removes its charge from the total. */
  lemma DropAtTotal(b: seq<Entry>, j: nat)
    requires j < |b|
    ensures PlanTotal(b) == PlanTotal(DropAt(b, j)) + Charge(b[j])
  {
    var n := |b| - 1;
    if j < n {
      PlanTotalUpdate(b[..n], j, b[n]);
    }
  }

  /** Overwriting one slot changes the total by the difference of the charges. */
  lemma PlanTotalUpdate(plan: seq<Entry>, i: nat, x: Entry)
    requires i < |plan|
    ensures PlanTotal(plan[i := x]) + Charge(plan[i]) == PlanTotal(plan) + Charge(x)
  {
    var u, v := plan[..i], plan[i + 1..];
    assert plan == (u + [plan[i]]) + v;
    assert plan[i := x] == (u + [x]) + v;
    PlanTotalAppend(u + [plan[i]], v);
    PlanTotalAppend(u, [plan[i]]);
    PlanTotalAppend(u + [x], v);
    PlanTotalAppend(u, [x]);
    assert PlanTotal([x]) == Charge(x) by { assert [x][..0] == []; }
    assert PlanTotal([plan[i]]) == Charge(plan[i]) by { assert [plan[i]][..0] == []; }
  }

  /** When some candidate is not planned, a repair step trades the dearest
      planned meal (the head of the cost sort) for the replacement. */
  lemma RepairStepTotal(plan: seq<Entry>, cands: seq<Entry>)
    requires |plan| > 0 && LastAbsent(cands, Ids(plan), |cands|).Some?
    ensures var s, k := SortByKey(plan, CostKey), LastAbsent(cands, Ids(plan), |cands|).value;
      && |s| == |plan| && s[0] in plan
      && (forall e :: e in plan ==> e.cost.GetOr(0) <= s[0].cost.GetOr(0))
      && PlanTotal(RepairStep(plan, cands)) + Charge(s[0]) == PlanTotal(plan) + Charge(Costed(cands[k]))
  {
    var s, k := SortByKey(plan, CostKey), LastAbsent(cands, Ids(plan), |cands|).value;
    RepairStepShape(plan, cands);
    var r := RepairStep(plan, cands);
    assert r == s[0 := Costed(cands[k])];
    PlanTotalUpdate(s, 0, Costed(cands[k]));
    PlanTotalPerm(s, plan);
    assert s[0] in multiset(plan);
    forall e | e in plan ensures e.cost.GetOr(0) <= s[0].cost.GetOr(0) {
      assert e in multiset(s);
      var j :| 0 <= j < |s| && s[j] == e;
      if j > 0 {
        assert s[0].cost.GetOr(0) >= s[j].cost.GetOr(0);
      }
    }
  }

  /** The highest estimated cost among the first `n` candidates, 0 for none. */
  function DearestCost(cands: seq<Entry>, n: nat): nat
    requires n <= |cands|
  {
    if n == 0 then 0
    else
      var c := EstimateTotal(cands[n - 1].recipe.ingredients);
      if c > DearestCost(cands, n - 1) then c else DearestCost(cands, n - 1)
  }

  /** `DearestCost` is the maximum: no earlier candidate costs more, and one
      of them costs exactly that much. */
  lemma {:induction false} DearestCostIsMax(cands: seq<Entry>, n: nat)
    requires 0 < n <= |cands|
    ensures forall k :: 0 <= k < n ==> EstimateTotal(cands[k].recipe.ingredients) <= DearestCost(cands, n)
    ensures exists k :: 0 <= k < n && EstimateTotal(cands[k].recipe.ingredients) == DearestCost(cands, n)
  {
    if n > 1 {
      DearestCostIsMax(cands, n - 1);
    }
  }

  /** `plan` is the costed copies of the first `|plan|` candidates, in order. */
  predicate CostedPrefix(plan: seq<Entry>, cands: seq<Entry>)
    decreases |plan|
  {
    && |plan| <= |cands|
    && (plan != [] ==>
         && CostedPrefix(plan[..|plan| - 1], cands)
         && plan[|plan| - 1] == Costed(cands[|plan| - 1]))
  }

  /** `CostedPrefix` says entry by entry that slot `k` is candidate `k` costed. */
  lemma {:induction false} CostedPrefixIndex(plan: seq<Entry>, cands: seq<Entry>)
    ensures CostedPrefix(plan, cands)
        <==> |plan| <= |cands| && forall k :: 0 <= k < |plan| ==> plan[k] == Costed(cands[k])
    decreases |plan|
  {
    if plan != [] {
      var init := plan[..|plan| - 1];
      CostedPrefixIndex(init, cands);
      assert forall k :: 0 <= k < |init| ==> init[k] == plan[k];
    }
  }

  /** Repair does not check that the replacement is cheaper. Take a plan of
      the costed first candidates, as `Select` builds from more than seven
      ranked candidates, and let the last candidate's id be new to it. The
      last candidate is then the replacement, and the first attempt raises
      the total exactly when it costs more than the dearest planned meal. */
  lemma RepairStepCanRaiseTotal(plan: seq<Entry>, cands: seq<Entry>)
    requires 0 < |plan| < |cands| && CostedPrefix(plan, cands)
    requires forall k :: 0 <= k < |plan| ==> cands[k].recipe.id != cands[|cands| - 1].recipe.id
    ensures PlanTotal(Steps(plan, cands, 1)) > PlanTotal(plan)
      <==> DearestCost(cands, |plan|) < EstimateTotal(cands[|cands| - 1].recipe.ingredients)
  {
    CostedPrefixFacts(plan, cands);
    RepairStepRaisesAt(plan, cands, |cands| - 1);
  }

  /** With at least seven ranked candidates the selected plan is their
      costed first seven. */
  lemma InitialPlanCostedPrefix(cands: seq<Entry>, pool: seq<Recipe>, draws: seq<nat>)
    requires |draws| == PlanLength && |cands| >= PlanLength
    ensures CostedPrefix(InitialPlan(cands, pool, draws), cands)
  {
    CostedPrefixIndex(InitialPlan(cands, pool, draws), cands);
  }

  /** The selected plan of more than seven ranked candidates, the last of
      which shares no id with the first seven: its first repair attempt
      raises the total exactly when that candidate costs more than each of
      the seven. */
  lemma SelectedPlanRepairCanRaise(cands: seq<Entry>, pool: seq<Recipe>, draws: seq<nat>)
    requires |draws| == PlanLength && |cands| > PlanLength
    requires forall k :: 0 <= k < PlanLength ==> cands[k].recipe.id != cands[|cands| - 1].recipe.id
    ensures var init := InitialPlan(cands, pool, draws);
      (PlanTotal(Steps(init, cands, 1)) > PlanTotal(init)
       <==> DearestCost(cands, PlanLength) < EstimateTotal(cands[|cands| - 1].recipe.ingredients))
  {
    InitialPlanCostedPrefix(cands, pool, draws);
    RepairStepCanRaiseTotal(InitialPlan(cands, pool, draws), cands);
  }

  /** What the repair lemma needs of a plan of costed first candidates. */
  lemma CostedPrefixFacts(plan: seq<Entry>, cands: seq<Entry>)
    requires 0 < |plan| < |cands| && CostedPrefix(plan, cands)
    requires forall k :: 0 <= k < |plan| ==> cands[k].recipe.id != cands[|cands| - 1].recipe.id
    ensures LastAbsent(cands, Ids(plan), |cands|) == Some(|cands| - 1)
    ensures forall e :: e in plan ==> e.cost.Some?
    ensures CostsBelow(plan, EstimateTotal(cands[|cands| - 1].recipe.ingredients))
        <==> DearestCost(cands, |plan|) < EstimateTotal(cands[|cands| - 1].recipe.ingredients)
  {
    var price := EstimateTotal(cands[|cands| - 1].recipe.ingredients);
    CostedPrefixIndex(plan, cands);
    LastCandidateAbsent(plan, cands);
    CostedPrefixCosts(plan, cands, |plan|, price);
    DearestCostIsMax(cands, |plan|);
  }

  /** The first repair attempt, when it finds a replacement on a plan whose
      meals are all costed: it raises the total exactly when the replacement
      costs more than every planned meal. */
  lemma RepairStepRaisesAt(plan: seq<Entry>, cands: seq<Entry>, k: nat)
    requires |plan| > 0 && k < |cands| && LastAbsent(cands, Ids(plan), |cands|) == Some(k)
    requires forall e :: e in plan ==> e.cost.Some?
    ensures PlanTotal(Steps(plan, cands, 1)) > PlanTotal(plan)
      <==> CostsBelow(plan, EstimateTotal(cands[k].recipe.ingredients))
  {
    StepsSucc(plan, cands, 0);
    RepairStepRaises(plan, cands, k);
  }

  /** Every meal of the plan carries a cost below `price`. */
  predicate CostsBelow(plan: seq<Entry>, price: int) {
    forall e :: e in plan ==> e.cost.Some? && e.cost.value < price
  }

  /** On a plan whose meals all carry a cost, a repair step that finds a
      replacement raises the total exactly when the replacement costs more
      than every planned meal. */
  lemma RepairStepRaises(plan: seq<Entry>, cands: seq<Entry>, k: nat)
    requires |plan| > 0 && k < |cands| && LastAbsent(cands, Ids(plan), |cands|) == Some(k)
    requires forall e :: e in plan ==> e.cost.Some?
    ensures PlanTotal(RepairStep(plan, cands)) > PlanTotal(plan)
      <==> CostsBelow(plan, EstimateTotal(cands[k].recipe.ingredients))
  {
    RepairStepTotal(plan, cands);
    var d := SortByKey(plan, CostKey)[0];
    var price := EstimateTotal(cands[k].recipe.ingredients);
    assert Charge(d) == d.cost.value;
    assert Charge(Costed(cands[k])) == price;
    if d.cost.value < price {
      forall e | e in plan ensures e.cost.value < price {
        assert e.cost.GetOr(0) <= d.cost.GetOr(0);
      }
    }
  }

  /** The costed first candidates are all costed, and each costs less than
      `price` exactly when every one of those candidates does. */
  lemma CostedPrefixCosts(plan: seq<Entry>, cands: seq<Entry>, m: nat, price: int)
    requires m == |plan| <= |cands|
    requires forall k :: 0 <= k < |plan| ==> plan[k] == Costed(cands[k])
    ensures forall e :: e in plan ==> e.cost.Some?
    ensures CostsBelow(plan, price)
        <==> forall k :: 0 <= k < m ==> EstimateTotal(cands[k].recipe.ingredients) < price
  {
    forall e | e in plan ensures e.cost.Some? {
      var k :| 0 <= k < |plan| && plan[k] == e;
    }
    if forall k :: 0 <= k < m ==> EstimateTotal(cands[k].recipe.ingredients) < price {
      forall e | e in plan ensures e.cost.value < price {
        var k :| 0 <= k < |plan| && plan[k] == e;
      }
    }
    if CostsBelow(plan, price) {
      forall k | 0 <= k < m ensures EstimateTotal(cands[k].recipe.ingredients) < price {
        assert plan[k] in plan;
      }
    }
  }

  /** The last candidate is the replacement when no planned meal shares its id. */
  lemma LastCandidateAbsent(plan: seq<Entry>, cands: seq<Entry>)
    requires 0 < |plan| < |cands|
    requires forall k :: 0 <= k < |plan| ==> plan[k] == Costed(cands[k])
    requires forall k :: 0 <= k < |plan| ==> cands[k].recipe.id != cands[|cands| - 1].recipe.id
    ensures LastAbsent(cands, Ids(plan), |cands|) == Some(|cands| - 1)
  {
    var id := cands[|cands| - 1].recipe.id;
    forall i | 0 <= i < |plan| ensures Ids(plan)[i] != id {
      assert plan[i].recipe == cands[i].recipe;
    }
  }
}
