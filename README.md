# mimir: returns to style, in Dafny

mimir.py estimates the return to an investment style, such as value, and
each asset's gearing ratio to that style. It alternates between two steps
until the gearing ratios stop moving:

* For each of the first `NUM_T_PERIODS` (80) periods, `get_style_return`
  ranks the assets by gearing ratio times style beta. It is long the
  top `round(0.2 n)` assets and short those from rank `round(0.8 n)` on.
  The return to style is the summed next-period return of the long leg
  minus that of the short leg.
* For each asset, `get_gearing_ratio` regresses the asset's returns on its
  style betas times the style returns, and takes the slope as the new
  gearing ratio.

The driver starts with every gearing ratio at 1 and `delta = THRESHOLD`.
It repeats both steps while `delta`, the sum of squared changes of the
gearing ratios, is at least `THRESHOLD` (0.01).

The model has five modules:

* `Parameters` holds the constants at mimir.py lines 6, 7 and 9.
* `Panel` models `list(zip(*rows))`. Its columns stop at the shortest row, and there are none when there is no row.
* `Ranking` models Python's stable `sorted(..., reverse=True)`. It is given as an insertion order, and is proved to be the one permutation that lists assets by descending score with ties in index order.
* `StyleReturn` models `get_style_return` and the per-period series built from it. Python's `IndexError` becomes a `Result` value.
* `Driver` models `get_gearing_ratio`, with the least-squares fit left abstract. It also models the fixed-point loop, once as the function `Loop` and once as the imperative method `Run`, proved equal to `Loop`.

Some details of mimir.py that the model keeps exactly:

* Convergence is measured on the gearing-ratio vector (line 68), not on
  the style-return series.
* The first pass runs only because `delta` starts at `THRESHOLD` and the
  loop test is `>=` (lines 58, 61). No further pass is forced: the loop
  can end after the first one.
* The regression's response is `asset_returns[:80]` with no shift
  (line 50).
* The gearing ratio is the slope `regr.coef_[0]` (line 53), with no
  filtering of the fit.
* The legs are plain sums (line 37).

`round` is Python 3's round-half-even. On `0.2 n` and `0.8 n` it gives
`(n + 2) / 5` and `(4 n + 2) / 5`. Their fractional parts are multiples of
1/5, never near one half, so rounding of the floating-point product cannot
change the result.

## Model

| member | source | states |
|---|---|---|
| Panel.MinWidth | mimir.py:25 | `zip` stops at the shortest row: the width is at most every row's length and equal to one of them |
| Panel.Transpose | mimir.py:25 | `list(zip(*rows))`; no contract of its own: `TransposeColumn` states which columns exist and what they hold |
| Panel.TransposeColumn | mimir.py:25 | column `c` of `zip(*rows)` exists exactly when there is a row and every row is longer than `c`; its entry `i` is `rows[i][c]` |
| Ranking.Insert | mimir.py:29 | one insertion step of the ranking adds exactly the new asset (multiset) and keeps every entry an asset index |
| Ranking.RankPrefix | mimir.py:29 | ranking the first `n` assets lists exactly the indices `0 .. n-1` |
| Ranking.Rank | mimir.py:29 | `ranked_indices`; no contract of its own: `RankIsStableSort` and `RankIsTheStableSort` state that it is the one stable descending permutation of `range(n)` |
| Ranking.InsertKeepsOrder | mimir.py:29 | inserting a larger index keeps a stable descending order |
| Ranking.RankPrefixOrdered | mimir.py:29 | the ranking of every prefix is in stable descending order |
| Ranking.RankIsStableSort | mimir.py:28-29 | `ranked_indices` is a permutation of `range(n)`; scores never increase along it; equal scores keep ascending index order |
| Ranking.FirstLeads | mimir.py:29 | the first asset of a stable descending order is ahead of every other asset in it |
| Ranking.StableOrderUnique | mimir.py:29 | two stable descending orders of the same assets are equal, so the sort result is unique |
| Ranking.RankIsTheStableSort | mimir.py:29 | any stably descending permutation of the assets equals `ranked_indices` |
| StyleReturn.PythonRound | mimir.py:34-35 | `round` gives an integer within one half of its argument, and the even one on an exact half |
| StyleReturn.RoundOfNear | mimir.py:34-35 | an integer strictly within one half of `x` is `round(x)` |
| StyleReturn.LongCountIsRound | mimir.py:34 | `round(0.2 n) == (n + 2) / 5` |
| StyleReturn.ShortStartIsRound | mimir.py:35 | `round(0.8 n) == (4 n + 2) / 5` |
| StyleReturn.LongCount | mimir.py:34 | the long-leg size is `(n + 2) / 5`, at most `n` |
| StyleReturn.ShortStart | mimir.py:35 | the short leg starts at `(4 n + 2) / 5`, between the long-leg size and `n` |
| StyleReturn.Sum | mimir.py:37 | Python's `sum`; no contract of its own: `LegOfRanking` and `LegsOfOrder` relate it to the legs, `Driver.SumNonNegative` and `Driver.SumOfZeros` bound it |
| StyleReturn.NextPeriodReturns | mimir.py:25 | `next_period_returns` exists exactly when every asset has a return at `t + 1`; entry `i` is `returns[i][t+1]` |
| StyleReturn.Scores | mimir.py:28 | `cmp_function` over the assets: one score per asset |
| StyleReturn.RankedReturns | mimir.py:31 | `ranked_returns`: one entry per ranked asset |
| StyleReturn.LongLeg | mimir.py:34 | `top_portion`; no contract of its own: `LegsAreDisjoint` gives its size and `LegsOfOrder` its sum |
| StyleReturn.ShortLeg | mimir.py:35 | `bottom_portion`; no contract of its own: `LegsAreDisjoint` gives its start and `LegsOfOrder` its sum |
| StyleReturn.LongShortReturn | mimir.py:37 | `return_to_style`; no contract of its own: `LegsOfOrder` and `StyleReturnOfStableOrder` state its value |
| StyleReturn.GetStyleReturn | mimir.py:24-38 | the style return exists exactly when the return column, every style beta at `t` and every gearing ratio exist; with at most two assets both legs are empty and it is 0 |
| StyleReturn.StyleReturnOfStableOrder | mimir.py:24-38 | for any stable descending order of the scores, the style return is the next-period return of its first `round(0.2 n)` assets minus that of its assets from `round(0.8 n)` on |
| StyleReturn.LegsOfOrder | mimir.py:31-37 | along any ranking, `top_portion` and `bottom_portion` sum to the returns of the assets at those ranks |
| StyleReturn.LegOfRanking | mimir.py:31 | a slice of `ranked_returns` sums to the next-period returns of the assets at those ranks |
| StyleReturn.LegsAreDisjoint | mimir.py:34-35 | the leg sizes are the two `round`s; no asset is in both legs; every long asset scores at least as high as every short asset |
| StyleReturn.FiveAssetScores | mimir.py:28 | with gearing ratios 1, the five-asset example's scores are the style betas |
| StyleReturn.FiveAssetOrder | mimir.py:29 | `[1, 3, 0, 2, 4]` is a permutation and stably descending for those scores: the tie between assets 1 and 3 keeps 1 first |
| StyleReturn.FiveAssetLegs | mimir.py:34-35 | with five assets the long leg is asset 1 alone and the short leg asset 4 alone |
| StyleReturn.FiveAssetExample | mimir.py:24-38 | the five-asset example's style return is `0.02 - (-0.03) = 0.05` |
| StyleReturn.ComputableEarlier | mimir.py:25-28 | a period whose style return is computable makes every earlier period computable |
| StyleReturn.LastPeriodDecides | mimir.py:63 | all 80 periods are computable exactly when period 79 is |
| StyleReturn.StyleReturnSeries | mimir.py:63 | `style_returns` exists exactly when period 79's style return does; it then has 80 entries, entry `t` being the style return of period `t` |
| Driver.Prefix | mimir.py:47-50 | `s[:n]` has `min(len(s), n)` entries, the first ones of `s` |
| Driver.RegressionInputs | mimir.py:47-50 | the regressor is `betas[t] * style_returns[t]` and the response `asset_returns[t]`, same index, over the first 80 periods |
| Driver.GearingRatio | mimir.py:41-53 | `get_gearing_ratio`; no contract of its own, since the fit is abstract: `RegressionInputs` states what the fit is given |
| Driver.NewGearingRatios | mimir.py:65 | one new gearing ratio per asset |
| Driver.SeriesAlignsRegressions | mimir.py:47-50 | whenever the series exists, every asset's regression has equal-length inputs, so numpy broadcasting never arises |
| Driver.SumNonNegative | mimir.py:68 | `sum` of entries that are all at least 0 is at least 0 |
| Driver.SquaredDifferences | mimir.py:68 | `np.subtract(a, b) ** 2` has one entry per asset, none negative |
| Driver.SquaredDistance | mimir.py:68 | `delta` is never negative |
| Driver.SumOfZeros | mimir.py:68 | `sum` of zeros is 0 |
| Driver.NoChangeNoDelta | mimir.py:68 | unchanged gearing ratios give `delta == 0` |
| Driver.Ones | mimir.py:57 | the initial gearing ratios: one per asset |
| Driver.Initial | mimir.py:57-58 | the state before the loop; no contract of its own: `DriverOutcome` states where the loop goes from it |
| Driver.Loop | mimir.py:61-72 | the `while` loop; no contract of its own: `LoopEnds`, `LoopRaises`, `DriverOutcome` and `FixedPointConverges` state how it ends |
| Driver.Pass | mimir.py:61-72 | one loop body succeeds exactly when the series exists; it keeps one gearing ratio per asset, stores an 80-entry series, sets `delta` to the squared change and counts one pass |
| Driver.ComputableIgnoresValues | mimir.py:28 | whether a style return raises depends on the number of gearing ratios, not their values |
| Driver.LoopEnds | mimir.py:61-72 | a converged loop ends with `0 <= delta < THRESHOLD`, one gearing ratio per asset and a full series after at most the allowed passes; hitting the cap means all allowed passes were made and `delta` is still at least `THRESHOLD` |
| Driver.LoopRaises | mimir.py:61-72 | the loop raises IndexError exactly when it runs the body and the first series cannot be computed |
| Driver.DriverOutcome | mimir.py:57-72 | from gearing ratios 1 and `delta = THRESHOLD` the body runs at least once; convergence, the cap and IndexError end as in `LoopEnds` and `LoopRaises` |
| Driver.FixedPointConverges | mimir.py:61-72 | gearing ratios the regressions reproduce are a fixed point: the next pass gives `delta == 0` and the loop converges there |
| Driver.Run | mimir.py:57-72 | the imperative driver loop computes exactly `Loop` from the initial state |

## Left out

- Reading and filtering the data files (mimir.py lines 11-17) is left out. The two tables are parameters. The shape assertion on line 19 becomes `Run`'s precondition `|assetReturns| == |styleBetas|`.
- `NUM_ASSETS` (line 8) only limits how many lines are read, so it is not part of this model.
- `linear_model.LinearRegression` is left abstract. It is the parameter `fit`, a total function from the regressor and response to the slope `regr.coef_[0]`. Nothing is proved about the value it returns.
- Floating point is modelled as exact reals. This affects the sums, the products and `delta`. `round` is exempt, as explained above.
- `print("Delta ", delta)` on line 69 is I/O and is left out.
- The source loop need not terminate. `Loop` and `Run` take a pass cap `maxPasses`, and the outcome `CapReached` reports that the cap was hit. The cap has no counterpart in the source.
- Python's sort algorithm (Timsort) is not modelled step by step. The model computes the unique stable descending result by insertion, and `RankIsTheStableSort` shows that any stable sort gives the same list.
- Exceptions other than IndexError are not modelled. The fit never fails in the model.
- Driver.SquaredDistance: the contract states only `delta >= 0`, plus `NoChangeNoDelta` for unchanged vectors. It does not prove the converse, that `delta == 0` only when the vectors are equal.
