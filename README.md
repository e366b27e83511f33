# Voyage economics and threshold search, modelled in Dafny

This project models the quantitative core of a freight decision-support
calculator. The calculator matches vessels to cargoes.

- **Partial voyage recalculation** (`VoyageEconomics`, `voyage_economics.dfy`).
  It takes a baseline voyage record and re-derives, under overridden VLSFO and
  MGO bunker prices, speed and extra waiting days:
  - sailing and total days (sailing time scales inversely with speed, and the
    speed divisor is clamped at 1 knot);
  - fuel burn (a cubic speed law, divided by the unclamped baseline speed);
  - bunker and time costs (daily hire 12000 and opex 3000 by default);
  - profit, with revenue backed out of the baseline and held fixed;
  - TCE (time charter equivalent), which is 0 when the duration is not positive.
- **Threshold analysis** (`ThresholdAnalysis`, `threshold_analysis.dfy`).
  There are two sweeps, one over extra delay days and one over a percentage
  increase of the VLSFO price. Each steps upward, recalculates every
  candidate of the pool, and takes the first-seen profit maximum. It returns
  at the first step where the winner's (vessel, cargo) key differs from the
  baseline's and its profit is more than 0.001 away from the baseline profit.
  The sweeps are methods with loops, proved against specification predicates.
- **Decision layer** (`AppRecommendation`, `app_recommendation.dfy`). This is
  the shortcut re-pricing of a precomputed row: the profit is shifted by the
  change in the fuel bill, and TCE is taken over the row's days. On top of it
  sit the ASSIGN / HEDGE / DECLINE rule and the top-five ranking of the table.
- `Records` (`records.dfy`) holds the shared row type. Every numeric column is
  an `Option`, read with the same default the source uses.

All quantities are `real`. The k-th sweep value is `start + k * step` for `k`
below the length of the source's `arange(start, end + step, step)`, which is
`max(0, ceil((end + step - start) / step))`.

Three behaviours of the code that are easy to miss:

- The kernel reads `days` with a default of 1 only when the column is
  absent. A recorded 0 stays 0 (then TCE is 0 unless extra days make the total
  positive). Only the decision layer maps
  a zero `days` to 1.
- An empty pool is no precondition. `max` over an empty profits list raises
  only once the sweep has a step to take. The model returns `EmptyPool`
  exactly then. An empty sweep range gives `NotFound` even for an empty pool.
- Recalculating at the baseline speed reproduces the baseline profit for
  every baseline only when that speed is at least 1 knot. Below 1 knot the
  clamp multiplies non-zero days by the baseline speed; a baseline with 0
  recorded days is unaffected. `SubKnotBaselineBreaksInvariance` gives a
  half-knot baseline whose days are halved.

## Model

| member | source | states |
|---|---|---|
| VoyageEconomics.RunPartialVoyage | cargill-datathon-2026/output/voyage_economics.py:4-46 | computes the recalculated profit, TCE, days and fuel burn that the `Recalc…` lemmas below characterise; its own contract states that TCE is 0 when total days are not positive, and that a baseline without fuel burn burns no fuel at any speed |
| VoyageEconomics.RecalcConservesDistance | cargill-datathon-2026/output/voyage_economics.py:14-22 | the recalculated sailing days times `max(speed, 1)` equal the baseline days times the baseline speed, so total days are that quotient plus the extra days |
| VoyageEconomics.RecalcFollowsCubicLaw | cargill-datathon-2026/output/voyage_economics.py:16-26 | VLSFO and MGO burn times the cube of the baseline speed equal the baseline burn times the cube of the new speed |
| VoyageEconomics.RecalcHoldsRevenue | cargill-datathon-2026/output/voyage_economics.py:28-36 | the new profit plus the new bunker and time costs equals the revenue implied by the baseline (its profit plus its costs at its own prices, or at the passed price where a price column is missing) |
| VoyageEconomics.RecalcTceIsProfitPerDay | cargill-datathon-2026/output/voyage_economics.py:37 | TCE times total days is the profit when total days are positive; otherwise TCE is 0 |
| VoyageEconomics.SpeedInvariance | cargill-datathon-2026/output/voyage_economics.py:20-36 | at the baseline speed (at least 1 knot), no extra days and the baseline's own prices, profit, days and both fuel burns equal the baseline's |
| VoyageEconomics.SubKnotBaselineBreaksInvariance | cargill-datathon-2026/output/voyage_economics.py:20-22 | a baseline at 0.5 knots recalculated at its own speed gets 5 days instead of 10, and a different profit |
| VoyageEconomics.DoubledSpeedBurnsEightfoldFuel | cargill-datathon-2026/output/voyage_economics.py:24-26 | doubling the speed over the baseline multiplies both fuel burns by exactly 8, at any prices |
| VoyageEconomics.ExtraDaysCostHireAndOpex | cargill-datathon-2026/output/voyage_economics.py:22-36 | `more` extra days add `more` to total days, leave fuel unchanged and lower profit by exactly `more * (daily_hire + opex_per_day)` |
| VoyageEconomics.HigherVlsfoPriceLowersProfit | cargill-datathon-2026/output/voyage_economics.py:25-36 | with a recorded VLSFO price, positive speeds and positive VLSFO burn, a strictly higher VLSFO price gives a strictly lower profit |
| VoyageEconomics.UnrecordedVlsfoPriceIsNeutral | cargill-datathon-2026/output/voyage_economics.py:31-36 | without a recorded VLSFO price, at the baseline speed (any non-zero speed, even below 1 knot), profit does not depend on the VLSFO price |
| ThresholdAnalysis.SweepCount | cargill-datathon-2026/output/voyage_economics.py:57 | k is below the count of sweep values iff the k-th value lies before the exclusive stop `end + step`, in the step's direction |
| ThresholdAnalysis.ProfitsAt | cargill-datathon-2026/output/voyage_economics.py:58-61 | the profits list has one entry per candidate, in pool order, carrying that candidate's vessel and cargo |
| ThresholdAnalysis.ProfitsAtEntry | cargill-datathon-2026/output/voyage_economics.py:59-61 | entry i of the profits list holds candidate i's recalculated profit |
| ThresholdAnalysis.CollectProfits | cargill-datathon-2026/output/voyage_economics.py:58-61 | the inner loop builds exactly the profits list of the step |
| ThresholdAnalysis.FirstMaxIndex | cargill-datathon-2026/output/voyage_economics.py:62 | the index has maximal profit, and every earlier entry has strictly less (ties go to the first seen) |
| ThresholdAnalysis.MaxByProfit | cargill-datathon-2026/output/voyage_economics.py:62 | the scan returns the entry at the first maximal index |
| ThresholdAnalysis.SameKeyPoolNeverFlips | cargill-datathon-2026/output/voyage_economics.py:63 | if every row carries the baseline key, the flip condition fails at any prices, delay and baseline profit |
| ThresholdAnalysis.FindDelayThreshold | cargill-datathon-2026/output/voyage_economics.py:49-65 | `EmptyPool` iff the pool is empty and the range is not; for a non-empty pool `NotFound` iff no delay in range flips; a `Found` delay is the first in range that flips (base profit at the starting delay), with its profits list, its first-seen argmax as winner, another key and a profit gap above 0.001 |
| ThresholdAnalysis.FindBunkerPriceThreshold | cargill-datathon-2026/output/voyage_economics.py:67-85 | the same for percentage steps: candidates recalculated at `vlsfo_price * (1 + pct/100)` with MGO unchanged, base profit at the unraised price |
| ThresholdAnalysis.DelaySweepOfSameKeyPool | cargill-datathon-2026/output/voyage_economics.py:49-65 | a non-empty pool of rows with the baseline key (such as the baseline alone) yields `NotFound` |
| ThresholdAnalysis.PriceSweepOfSameKeyPool | cargill-datathon-2026/output/voyage_economics.py:67-85 | the same for the price sweep |
| ThresholdAnalysis.ProfitOfA | cargill-datathon-2026/output/voyage_economics.py:28-36 | vessel A of the two-vessel pool, at its own speed, no delay and VLSFO price p, earns 350000 - 500p (revenue 532500 held fixed) |
| ThresholdAnalysis.ProfitOfB | cargill-datathon-2026/output/voyage_economics.py:28-36 | vessel B earns 140000 - 100p under the same conditions (revenue 296500 held fixed) |
| ThresholdAnalysis.ScenarioProfits | cargill-datathon-2026/output/voyage_economics.py:76-81 | in the two-vessel pool, at k percent, A earns 100000 - 2500k and B earns 90000 - 500k |
| ThresholdAnalysis.ScenarioFlipsFromSix | cargill-datathon-2026/output/voyage_economics.py:82-84 | the two-vessel pool flips exactly from 6 percent on (at 5 percent the tie goes to A) |
| ThresholdAnalysis.BunkerPriceScenario | cargill-datathon-2026/output/voyage_economics.py:67-85 | the default 0..200 percent sweep of the two-vessel pool returns 6 percent, winner B/Y at 87000, profits [A 85000, B 87000] |
| AppRecommendation.ComputeAdjustedProfit | cargill-datathon-2026/output/app_streamlit.py:59-80 | missing profit, tonnage and tce read as 0; the adjusted profit plus the new fuel bill equals the original profit plus the original fuel bill (a missing price counts at the new price); days are never 0, a missing or zero days column reads as 1; adjusted TCE times days is the adjusted profit for positive days, else 0 |
| AppRecommendation.UnchangedPricesKeepProfit | cargill-datathon-2026/output/app_streamlit.py:63-70 | at the row's own prices (or with its price columns missing) the adjusted profit is the original profit |
| AppRecommendation.MissingColumnsGiveZeroProfit | cargill-datathon-2026/output/app_streamlit.py:62-70 | without profit and tonnage columns the adjusted profit is 0 at any prices |
| AppRecommendation.VlsfoPriceShiftsProfit | cargill-datathon-2026/output/app_streamlit.py:63-70 | raising the VLSFO price by d lowers the adjusted profit by d times the VLSFO tonnage if the row records a VLSFO price, and not at all otherwise |
| AppRecommendation.AdjustedProfitMatchesRecalculation | cargill-datathon-2026/output/app_streamlit.py:59-80 | at the baseline speed (at least 1 knot) and no extra days, the full recalculation's profit equals the shortcut's adjusted profit, at any prices |
| AppRecommendation.HedgeFloor | cargill-datathon-2026/output/app_streamlit.py:114 | the lower edge of the hedging band, `-0.05 * max(1, orig_profit)`, is at most -0.05 |
| AppRecommendation.Recommend | cargill-datathon-2026/output/app_streamlit.py:108-125 | exactly one of three: ASSIGN iff adjusted profit >= 0; HEDGE iff it lies strictly between the hedge floor and 0; DECLINE iff it is at or below the hedge floor |
| AppRecommendation.RecommendIsMonotone | cargill-datathon-2026/output/app_streamlit.py:108-125 | for a fixed original profit, a higher adjusted profit never gets a weaker recommendation (DECLINE < HEDGE < ASSIGN) |
| AppRecommendation.SmallLossIsHedged | cargill-datathon-2026/output/app_streamlit.py:114-119 | a loss smaller than 0.05 is hedged whatever the original profit |
| AppRecommendation.RecommendRow | cargill-datathon-2026/output/app_streamlit.py:95-125 | at the row's own prices, the row is assigned iff its recorded profit is non-negative |
| AppRecommendation.TakeTop | cargill-datathon-2026/output/app_streamlit.py:141 | sort-descending-then-head-5: min(5, n) entries, non-increasing in adjusted profit, a sub-multiset of the scored rows, and no row left out has a higher adjusted profit than a row kept |
| AppRecommendation.TopAssignments | cargill-datathon-2026/output/app_streamlit.py:137-141 | the same for the whole table scored at the new prices, and each kept row carries its own adjusted profit |

`VoyageEconomics.RunPartialVoyage` is the kernel itself. Its closed-form
properties are the `Recalc…` lemmas and the lemmas after them.
`Insert`, `SortDescending`, `InsertPermutes`, `SortPermutes`, `TakeSplits`
and `PrefixNonIncreasing` are the sort behind `TakeTop`.

## Left out

- Streamlit: the form, widgets, metrics, tables, download button, the
  median-based default VLSFO price and the risk report. Also the lookup of
  the selected row by vessel and cargo, with its error message. These are
  user interface, not computation.
- The `try/except` around the `float()` conversions of the adjusted-profit
  computation, and its `{'error': ...}` result. Inputs are modelled as
  already numeric optional columns.
- pandas and numpy mechanics (`iterrows`, `to_dict`, `apply`). A table is a
  `seq` of records. A pandas cell holding NaN is not distinguished from a
  number, and an absent column is `None`.
- IEEE floating point: `arange` accumulation error, rounding in `** 3` and in
  the divisions. All arithmetic is exact over the reals, and the tolerance
  0.001 is an exact constant.
- Order among rows of equal adjusted profit in the top five. The pandas
  default sort is not stable. The model's insertion sort fixes one order, and
  the contracts claim only what every order satisfies.
- The duplicate `adj_profit` and `adj_tce` keys of the kernel's result, and
  the `fuel` sub-dictionary. These are the same values as `profit`, `tce`,
  `vlsfoMt` and `mgoMt`.
- A zero baseline speed (for the base row or any pool row), and a zero sweep
  step. The source fails with a division error on both. The model makes them
  preconditions instead of an error result.
- Idempotence of the recalculation is not a separate lemma. Dafny functions
  are deterministic by construction.
- The data loading and aggregation module, `freight_api.py`, is not part of
  this model.
- VoyageEconomics.SpeedInvariance: requires the baseline speed to be at
  least 1 knot. It then holds for every baseline; below 1 knot the clamp
  multiplies non-zero days by the baseline speed, so the profit changes
  unless the recorded days are 0. `SubKnotBaselineBreaksInvariance` shows a
  case.
- VoyageEconomics.HigherVlsfoPriceLowersProfit: requires the baseline speed
  to be positive as well as the new speed. With opposite signs the cubic fuel
  factor is negative, and higher prices raise profit.
- AppRecommendation.AdjustedProfitMatchesRecalculation: equates profit only.
  TCE differs when a row records 0 days, because the shortcut then divides by
  1 day and the kernel returns 0.
