# ConciergeChef meal planner: a Dafny model of its planning core

ConciergeChef is a small multi-agent meal planner. Given a recipe catalog,
a user profile (diet), a pantry and constraints (maximum cooking time,
weekly budget), it builds a seven-dinner weekly plan and a shopping list.
This project models the four operations that do the work:

- **Recipe search** (`RecipeTool.search`). It keeps the catalog recipes that
  match the diet (when one is given) and whose time, 999 when absent, is at
  most the maximum. It scores each survivor by its pantry overlap plus a
  random tiebreak in [0, 1), then sorts by score descending and time ascending.
- **Price estimate** (`PriceTool.estimate`). A fixed table of unit prices
  with a default of 1.5 for unknown ingredients. It returns a dict keyed by
  the distinct names.
- **Weekly plan** (`PlannerAgent.generate_weekly_plan`), in four phases:
  - Selection: copy the ranked candidates with their estimated cost into
    seven slots, falling back to random catalog picks once the candidates
    run out.
  - Repair: at most five times, while the total is over budget, stable-sort
    the plan by cost and overwrite its first slot with a costed copy of the
    last-ranked candidate not yet planned.
  - The total counts 3.0 for an entry without a cost.
  - Finish: recompute every entry's pantry overlap.
- **Shopping list** (`ShoppingListAgent.build_shopping_list`). It counts
  every ingredient occurrence across the plan and drops pantry items. It
  prices each remaining item once, not weighted by quantity.

Modelling choices:

- Money is in integer cents. The table prices are 250, 120, 70, 100, 300,
  200 and 100; the default is 150 and a missing cost counts 300. The default
  budget of 60 becomes 6000.
- Scores are integers: `overlap * 1000000 + jitter` with `0 <= jitter < 1000000`.
- The random tiebreaks are an input sequence, one value per catalog recipe.
- The random fallback picks are an input sequence `draws`, one per day. The
  pick of day `k` is `recipes[draws[k] % |recipes|]`.
- Python dicts are values here. A recipe is a `Recipe`; a plan entry or
  search result is an `Entry`, which adds the optional keys
  `pantry_overlap`, `score` and `estimated_cost`.
- Python's failures are explicit `Err` results:
  - the sort key `x["time"]` raises a KeyError when a survivor has no time;
  - `random.choice` on an empty catalog raises an IndexError.
- Python's `list.sort` is stable, with or without `reverse=True`. It is
  modelled by a stable insertion sort on a pair key. `Sorting.StableSortUnique`
  shows that every sort that is ordered and stable gives the same result.
- The source's loops are methods with loop invariants, each proved equal to
  a specification function. The sort and the dict comprehensions are
  functions.

Modules: `Seqs` (counts, first-occurrence order, filtering), `Sorting`,
`Meals` (data model), `Prices`, `RecipeTool`, `Planner`, `Shopping`.

On an empty catalog with fewer than 7 ranked candidates, the selection loop
calls `random.choice` on the empty list (agent.py:118), which raises an
IndexError. `Planner.Select` and `Planner.GenerateWeeklyPlan` return
`Err(EmptyPool)` in that case.

## Model

| member | source | states |
|---|---|---|
| Sorting.SortPerm | agent.py:76 | Sorting yields a permutation of the input of the same length |
| Sorting.SortSorted | agent.py:76 | The sorted list is ordered by the key (lexicographic pair order) |
| Sorting.SortStable | agent.py:128 | The sort is stable: the elements of every key class keep their relative order |
| Sorting.StableSortUnique | agent.py:128 | Two lists ordered by the same key with the same key classes are equal, so any stable sort (Python's among them) gives the modelled result |
| Meals.OverlapCountsDistinctPantryNames | agent.py:70 | `pantry_overlap` counts distinct pantry ingredients: it is the length of the first-occurrence ingredient list restricted to pantry names, at most the number of distinct ingredients |
| Prices.UnitPrice | agent.py:83-84 | A unit price is the table price or 150 cents, always between 70 and 300 |
| Prices.Estimate | agent.py:81-84 | The estimate has exactly one key per listed name, mapped to its unit price |
| Prices.EstimateTotalIsDictSum | agent.py:114 | The estimated cost of a recipe is the sum of the estimate dict's values over its keys in first-occurrence order |
| Prices.EstimateTotalIsDistinctSum | agent.py:133 | The estimated cost is the sum of the unit prices of the distinct names |
| Prices.EstimateTotalIgnoresRepeats | agent.py:84 | A name listed twice is paid once: doubling the list leaves the cost unchanged |
| Prices.EstimateTotalBounds | agent.py:83-84 | The cost lies between 70 and 300 cents times the number of distinct names, and a non-empty list costs at least 70 |
| RecipeTool.Search | agent.py:58-77 | Fails with MissingTime exactly when some passing recipe has no time; otherwise returns the passing recipes' scored copies, sorted by (-score, time) and a permutation of them |
| RecipeTool.SurvivorsMembers | agent.py:64-75 | An entry is among the survivors exactly when it is the scored copy of a recipe that passes the diet and time filter |
| RecipeTool.RankedExactly | agent.py:64-76 | The ranked list contains exactly the scored copies of the passing recipes |
| RecipeTool.RankedMembers | agent.py:64-75 | Every ranked entry passes the filter, comes from the catalog, has `pantry_overlap` equal to the overlap with the pantry, no cost, and a score in [overlap, overlap + 1) units |
| RecipeTool.RankedOverlapNonIncreasing | agent.py:71-76 | Along the ranked list, `pantry_overlap` never increases |
| RecipeTool.RankedTiesByTime | agent.py:76 | Along the ranked list, scores never increase, and entries with equal scores are in ascending time order |
| Planner.Select | agent.py:108-120 | Fails with EmptyPool exactly when there are fewer than 7 candidates and the catalog is empty. Otherwise the plan has 7 entries: costed copies of the first min(7, n) candidates in rank order, then the catalog picks chosen by the draws |
| Planner.InitialPlanFromSource | agent.py:111-119 | Every selected entry is a costed copy of a candidate or an untouched catalog recipe |
| Planner.FindReplacement | agent.py:130-135 | Finds the last candidate whose id is not in the plan, with every later candidate planned; none only when every candidate is planned |
| Planner.LastAbsentSpec | agent.py:130-131 | The reverse scan's result is absent from the ids, every later candidate is present, and no result means every candidate is present |
| Planner.RepairAttempt | agent.py:128-135 | One pass of the loop body computes the repair step and keeps the plan length |
| Planner.RepairStepShape | agent.py:128-135 | One repair step stable-sorts the plan by cost descending, with a missing cost as 0. Only slot 0 may then change: to a costed copy of the last candidate not in the plan, or not at all when every candidate is planned. The length is kept |
| Planner.RepairStepMembers | agent.py:130-134 | After a repair step, every entry was already in the plan or is a costed copy of a candidate |
| Planner.Repair | agent.py:123-138 | The loop makes at most 5 attempts and attempts again only while the total is over budget. It stops under budget when it stops early (`RepairStops`). It leaves the plan untouched when the initial total is within budget. It ends with the total of the final plan and keeps the plan length |
| Planner.RepairStopsUnique | agent.py:123-136 | The stop rule fixes the number of attempts: two counts that both meet it are equal, so the repaired plan is determined by the selected plan, the candidates and the budget |
| Planner.StepsLength | agent.py:126-138 | Any number of repair attempts keep the plan length |
| Planner.StepsFromSource | agent.py:126-138 | Repair brings in only costed copies of candidates, so every entry stays a costed candidate or an untouched catalog recipe |
| Planner.StepsStayPositive | agent.py:123-136 | Suppose every entry has a positive charge and every candidate has ingredients. Then every entry keeps a positive charge and the total stays positive through any number of attempts, so a zero budget never stops the loop early |
| Planner.PlanTotalPerm | agent.py:128 | Reordering the plan leaves its total unchanged, so the repair sort alone never changes the total |
| Planner.PlanTotalUpdate | agent.py:134-136 | Overwriting one slot changes the total by the new charge minus the old one |
| Planner.RepairStepTotal | agent.py:128-136 | When a replacement exists, the sort puts a dearest meal first, and the step's total is the old total minus that meal's charge plus the replacement's cost |
| Planner.RepairStepRaises | agent.py:128-136 | On a plan whose meals are all costed, a step that finds a replacement raises the total exactly when the replacement costs more than every planned meal |
| Planner.CostedPrefixIndex | agent.py:111-114 | A plan is the costed first candidates exactly when each slot `k` holds candidate `k` with its estimated cost |
| Planner.InitialPlanCostedPrefix | agent.py:111-114 | With at least 7 ranked candidates the selected plan is the costed first seven |
| Planner.DearestCostIsMax | agent.py:114 | `DearestCost(cands, n)` is the largest estimated cost among the first `n` candidates: none costs more and one costs that much |
| Planner.RepairStepCanRaiseTotal | agent.py:129-135 | The replacement is not checked to be cheaper. On a plan of costed first candidates whose ids differ from the last candidate's, the first attempt raises the total exactly when the last candidate costs more than the dearest planned meal |
| Planner.SelectedPlanRepairCanRaise | agent.py:111-135 | The same for the plan selection actually builds from more than 7 ranked candidates: its first repair attempt raises the total exactly when the last candidate costs more than each of the first seven |
| Planner.RefreshOverlap | agent.py:141-142 | Every entry's `pantry_overlap` becomes its overlap with the pantry; nothing else changes |
| Planner.WithOverlapKeepsTotal | agent.py:141-143 | Recomputing overlaps leaves the plan total unchanged, so the returned `estimated_total` is the final plan's total |
| Planner.PlannedEntry | agent.py:113-118 | A planned entry with a cost carries its recipe's estimated cost and passed the filter; one without comes from the catalog |
| Planner.GenerateWeeklyPlan | agent.py:99-143 | Fails exactly when the search fails (MissingTime) or the catalog is empty (EmptyPool). Otherwise it returns 7 entries and their total, with 3.0 for a missing cost. Every entry has its pantry overlap and, when costed, its recipe's estimated cost and a recipe that passes the filter; uncosted entries come from the catalog. The plan is the selected plan after `n` repair steps, where every attempt before the `n`-th began over budget, `n` is at most 5, and `n` is below 5 only when the plan is then within budget (`RepairStops`, which fixes `n` by `RepairStopsUnique`); so it is the selected plan itself when that is within budget |
| Shopping.Tally | agent.py:151-154 | `agg` counts every occurrence of every ingredient in the plan, and its key order is the order of first occurrence |
| Shopping.TallyMeal | agent.py:153-154 | Counting one meal's ingredients extends the counts and key order from the ingredients seen so far to those plus the meal's |
| Shopping.BuildShoppingList | agent.py:149-159 | Items are exactly the plan's ingredients that are not in the pantry, each with its occurrence count. Prices have exactly the item keys, each its unit price. The total is the sum of the unit prices, not weighted by quantity |
| Shopping.ShoppingIgnoresQuantities | agent.py:154-158 | Doubling the plan doubles every count but leaves the item list and the total unchanged |
| Shopping.ShoppingTotalBounds | agent.py:157-158 | The total lies between 70 and 300 cents times the number of items |
| Shopping.FullPantryBuysNothing | agent.py:155-158 | When the pantry holds every ingredient, nothing is bought and the total is 0 |

## Left out

- `MemoryBank` (agent.py:23-41): reading and writing a JSON file is I/O.
- `CalendarTool.create_event` (agent.py:88-91): random event ids and logging only.
- `SchedulerAgent.schedule_meals` (agent.py:165-173): date arithmetic around calendar calls.
- `ConciergeChef.handle_request` and the demo entry point (agent.py:176-228): orchestration and persistence glue.
- Logging calls: no effect on results.
- Loading the catalog from a file (`RecipeTool.__init__`): I/O. The catalog is an input.
- Global random state:
  - the tiebreak is an input, one value per catalog recipe rather than per `random.random()` call; any assignment of tiebreaks to survivors can still be expressed;
  - the fallback pick is an input draw per day.
- Floating point: prices, costs and the budget are exact integer cents, so float rounding in sums and comparisons is not modelled. Scores are scaled integers, so a tiebreak is one of 1000000 values rather than a float in [0, 1).
- RecipeTool.RankedOverlapNonIncreasing: holds for the integer scores only. In floats, `pantry_overlap + random.random()` (agent.py:71) can round up to the next integer, as `1 + (1 - 2**-53) == 2.0` does, so the sort at agent.py:76 may rank an overlap-1 recipe above an overlap-2 one; the chance of such a draw is negligible.
- In-place list updates: `results.sort`, `plan.sort` and `plan[0] = ...` are modelled as new sequence values.
- Object aliasing: fallback entries are the catalog's own dicts, and agent.py:142 writes `pantry_overlap` into them, so the catalog itself changes. Entries here are values, and the catalog is unchanged.
- Record keys:
  - `id`, `title` and `ingredients` are always present, so the KeyErrors their absence would raise are not modelled;
  - a key present with value `None` is treated as absent;
  - recipe keys other than `diet` and `time` are dropped.
- Dynamic types: a non-string diet, a non-integer time or budget, and non-list ingredients are excluded by the types.
- Planner.Repair: requires a non-empty plan. The selected plan always has 7 entries, and `plan[0] = ...` on an empty plan would raise.
- The `query` dict of `search` is passed as separate arguments. `diet == ""` stands for a falsy diet, which disables the filter.
