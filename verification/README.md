# Marketing analysis core, modelled in Dafny

The program reads a marketing table (one row per campaign record, with the
columns platform, spend, revenue, clicks and conversions), normalises the
column names, computes global totals and ratios, groups the rows by platform,
derives per-platform profit, ROI, ROAS and CPL, ranks the platforms by
profit, and draws a dashboard: KPI cards, profit bars with labels, a spend
donut and a CPL table. This project models that pipeline as pure functions
over immutable data and proves how the steps relate.

- `wrappers.dfy`: `Option` and `Result`.
- `columns.dfy`: column-name normalisation (lower-case, spaces to `_`) and the check that each of the five columns the analysis reads occurs exactly once.
- `records.dfy`: an input row and the four summed measures.
- `metrics.dfy`: ROI, ROAS and CPL as partial ratios, and the global overview.
- `grouping.dfy`: the group-by on platform, with buckets in ascending key order as pandas produces them by default.
- `platform_stats.dfy`: the per-platform stats table with its derived columns.
- `ranking.dfy`: the sort by profit, largest first.
- `dashboard.dfy`: the dashboard panels and the whole pipeline `Analyse`.
- `scenarios.dfy`: worked examples on small tables.

Amounts are exact: spend and revenue are `real`, clicks and conversions are
`int`. The source divides without a guard. For the per-platform ratios
(analysis.py:53-54, 89-90) this is a division of pandas columns, which yields
inf or NaN on a zero denominator. The global ratios (analysis.py:28-29) divide
the column sums; on a sheet without data rows those sums can be plain Python
zeros, and the division then raises `ZeroDivisionError` (see "## Left out").
Here each ratio is `None` exactly when its denominator is
zero, and otherwise the ratio times the denominator gives back the numerator.

The script and the dashboard class repeat the same pipeline (analysis.py:14-59
and 78-91). It is modelled once. The script derives ROI and ROAS and the
class derives ROI and CPL, so one stats row here carries all three.

## Model

| member | source | states |
|---|---|---|
| Columns.LowerChar | analysis.py:16 | the result is never a capital letter; it differs from the input exactly when the input is a capital; a space stays a space and nothing else becomes one |
| Columns.CapitalsCover | analysis.py:16 | the capital letters the model lower-cases are exactly those listed in the alphabet table (Latin A-Z, Cyrillic Ѐ-Џ and А-Я) |
| Columns.LowerCharAlphabet | analysis.py:16 | each capital of the alphabet table becomes the small letter written below it (`'B'` to `'b'`, `'Ж'` to `'ж'`, `'Ё'` to `'ё'`), and every other character is kept |
| Columns.Lower | analysis.py:16 | same length, and each character is mapped by LowerChar at its own position; by LowerChar's contract the result therefore holds no capital of the alphabet table |
| Columns.ReplaceSpaces | analysis.py:17 | same length; each plain space becomes `_` and every other character is kept, including other whitespace |
| Columns.NormaliseName | analysis.py:14-18 | same length; every space becomes `_`, every other character is lower-cased; the result has no space and no capital |
| Columns.NormaliseNameIdempotent | analysis.py:14-18 | normalising a name twice equals normalising it once |
| Columns.NormalColumnsFixed | analysis.py:78 | a header whose names are already normal is left unchanged |
| Columns.NormaliseColumns | analysis.py:78 | same number of columns, same order, each name normalised |
| Columns.NormaliseColumnsIdempotent | analysis.py:14-18 | normalising the header twice equals normalising it once, and no normalised column name contains a space |
| Columns.Missing | analysis.py:23-27 | a required column is reported missing exactly when no normalised header name equals it |
| Columns.Duplicated | analysis.py:82 | a required column is reported duplicated exactly when two or more normalised header names equal it |
| Columns.CheckSchema | analysis.py:78-87 | the header passes exactly when every required column occurs exactly once after normalisation; otherwise the error lists exactly the missing and exactly the duplicated ones |
| Metrics.Roi | analysis.py:28 | ROI is undefined exactly when spend is zero; otherwise ROI × spend = profit × 100 |
| Metrics.Roas | analysis.py:54 | ROAS is undefined exactly when spend is zero; otherwise ROAS × spend = revenue |
| Metrics.Cpl | analysis.py:29 | CPL is undefined exactly when conversions are zero; otherwise CPL × conversions = spend |
| Metrics.RoiFromRoas | analysis.py:53-54 | with non-zero spend, ROI = (ROAS − 1) × 100 |
| Metrics.RoiSign | analysis.py:28 | with non-zero spend, ROI is positive exactly when profit and spend have the same sign |
| Metrics.Overall | analysis.py:23-29 | global sums of the four measures, profit = revenue − spend, and the global ROI and CPL with the zero-denominator cases |
| Metrics.EmptyOverview | analysis.py:23-29 | an empty table gives zero totals and undefined ROI and CPL (the source may instead raise here; see "## Left out") |
| Grouping.Group | analysis.py:40-49 | never more groups than input rows, and no group exactly when there is no row; GroupShape, GroupLookup and GroupSum state its keys, order and sums (also analysis.py:82-87) |
| Grouping.AddRowKeys | analysis.py:40-49 | adding a row adds its platform to the group keys and no other key |
| Grouping.AddRowAscending | analysis.py:40-49 | adding a row keeps the groups strictly ascending by platform |
| Grouping.AddRowLookup | analysis.py:40-49 | adding a row adds its measures to its own platform's sums and leaves every other platform's sums unchanged |
| Grouping.AddRowSum | analysis.py:40-49 | adding a row adds its measures to the sum over all groups |
| Grouping.GroupShape | analysis.py:40-49 | the groups are strictly ascending by platform and their keys are exactly the input's platforms |
| Grouping.GroupLookup | analysis.py:40-49 | every platform's group sums equal the sums over the input rows with that platform |
| Grouping.GroupSum | analysis.py:40-49 | summed over all groups, each measure equals its global total |
| Grouping.AscendingDistinct | analysis.py:41 | in the grouped output no platform occurs twice |
| Grouping.GroupBucketSums | analysis.py:82-87 | every grouped row holds the sums of the input rows of its platform |
| PlatformStats.Derive | analysis.py:52-54 | a stats row keeps its group's sums, has profit = revenue − spend and the ROI, ROAS and CPL of those sums, each undefined exactly on a zero denominator (also analysis.py:88-90) |
| PlatformStats.DeriveAll | analysis.py:52-54 | one stats row per group, in the groups' order, each the derivation of the group at the same index (also analysis.py:88-90) |
| PlatformStats.DeriveAllTotals | analysis.py:88-90 | deriving the ratio columns leaves the summed columns' totals unchanged |
| PlatformStats.ProfitSumIsTotalProfit | analysis.py:88 | the per-platform profits add up to total revenue minus total spend |
| PlatformStats.DeriveAllPlatforms | analysis.py:82-87 | the stats table has the groups' platforms, each once |
| Ranking.Place | analysis.py:91 | inserting a row into a profit-descending sequence keeps it profit-descending and adds exactly that row |
| Ranking.Rank | analysis.py:91 | the ranked rows are a permutation of the input rows and profit never increases along them |
| Ranking.RankLength | analysis.py:91 | ranking keeps the number of rows |
| Ranking.RankMembers | analysis.py:91 | a row is in the ranked table exactly when it is in the unranked one |
| Ranking.PlaceTotals | analysis.py:91 | inserting a row adds its measures to the column sums |
| Ranking.PlaceProfitSum | analysis.py:91 | inserting a row adds its profit to the profit sum |
| Ranking.RankTotals | analysis.py:91 | ranking keeps every column sum and the profit sum |
| Ranking.PlacePlatforms | analysis.py:91 | inserting a row adds its platform, and a new platform keeps platforms distinct |
| Ranking.RankPlatforms | analysis.py:91 | ranking keeps the set of platforms and their distinctness |
| Dashboard.Annotate | analysis.py:127-129 | one profit label per row, numbered by position, with that row's platform and profit |
| Dashboard.Slices | analysis.py:134 | one donut wedge per row, in row order, labelled by platform with that row's spend |
| Dashboard.Lines | analysis.py:144-146 | one table line per row, in row order, with platform, conversions and CPL |
| Dashboard.Compose | analysis.py:105-146 | bar labels, donut and table all have one entry per stats row, in the same order and with the same platform and values; the spend and revenue cards are the column sums of the stats rows |
| Dashboard.StatsTable | analysis.py:82-91 | the stats table is in non-increasing profit order, has no more rows than the input and is empty exactly when the input is; StatsPlatforms, StatsSumToTotals and StatsRowsMatchInput state its contents |
| Dashboard.Analyse | analysis.py:74-91 | fails exactly when some required column does not occur exactly once after normalisation, naming exactly the missing and the duplicated ones; otherwise the overview is the global one and the stats are a profit-descending permutation of the derived groups |
| Dashboard.StatsSumToTotals | analysis.py:82-87 | the stats table's column sums equal the global totals, and its profits add up to the global profit (analysis.py:23-27) |
| Dashboard.StatsPlatforms | analysis.py:82-87 | the stats table has exactly one row per distinct input platform |
| Dashboard.DistinctCard | analysis.py:82-87 | with distinct platforms, the row count equals the platform count |
| Dashboard.StatsRowsMatchInput | analysis.py:82-90 | each stats row holds the sums of its platform's input rows and correctly derived ratios |
| Dashboard.KpisShowGlobalTotals | analysis.py:106-107 | the total-spend and total-revenue cards equal the global totals of analysis.py:23-24 |
| Dashboard.ComposeRanked | analysis.py:127-146 | for any profit-ranked table without a repeated platform, the bars name each of its platforms exactly once in non-increasing profit order, and the CPL table follows the same order |
| Dashboard.PanelsCoverPlatforms | analysis.py:127-146 | bar labels and table have one entry per input platform, no platform twice, profit non-increasing, the same platform at each position |
| HeaderExample.HeaderComplete | analysis.py:78 | a header with the normalised names is unchanged by normalisation and holds every required column exactly once |
| HeaderExample.RepeatedPlatformRejected | analysis.py:82 | a header with `platform` twice is rejected for every table, and `platform` is named as duplicated |
| Scenarios.TwoPlatforms | analysis.py:23-55 | two platforms: totals 300 spend, 550 revenue, 250 profit, CPL 20; Google (profit 200) is ranked before Meta (profit 50) |
| Scenarios.ZeroSpendStats | analysis.py:88-90 | a platform with zero spend gets undefined ROI and ROAS, profit 50 and a defined CPL |
| Scenarios.ZeroSpendPanels | analysis.py:134-146 | that platform still appears in the donut and in the CPL table |
| Scenarios.EmptyTable | analysis.py:23-29 | in the model an empty table succeeds with zero totals, undefined ratios, no stats rows and zero KPI cards (the source may instead raise here; see "## Left out") |

## Left out

- Reading the Excel file and the file-existence check (analysis.py:9, 75-77): file I/O through pandas. The rows arrive as a parameter.
- All console output (analysis.py:7-12, 19-20, 31-38, 50, 57-59).
- Plot style, figure and grid layout, box patches, bar and donut geometry, the label offset `max(profit) * 0.01`, table styling and showing the figure (analysis.py:61-70, 94-103, 110-125, 130-143, 147-165): drawing calls into matplotlib and seaborn.
- Number formatting (`{:,.0f}`, `{:.1f}%`, `"${:,.2f}"`) and floating-point rounding: the model keeps exact values.
- The mean-ROI KPI card (analysis.py:108): its value on zero-spend platforms depends on how pandas averages inf and NaN.
- Tie order among equal profits: `sort_values` (analysis.py:55, 91) uses an unstable sort and no tie-break.
- Ranking.Rank: states only the permutation and the non-increasing profit, because the source fixes no order among equal profits.
- Columns.LowerChar: lower-cases only ASCII and the basic Cyrillic capitals (U+0400-U+042F). Python's `str.lower` covers all of Unicode, including characters whose lower-case form is longer than one character.
- Metrics.EmptyOverview: for a sheet with a header but no data rows, pandas may read every column as object dtype, and its sums are then the Python int 0. `total_profit / total_spend` at analysis.py:28 is then `0 / 0` on ints and raises `ZeroDivisionError` before any panel is drawn. The model returns zero sums with undefined ratios instead; Scenarios.EmptyTable states the same model behaviour.
- Columns.CheckSchema: the source fails with a `KeyError` on the first missing column it reads. The model reports every missing required column instead.
- Columns.CheckSchema: a required column that occurs twice is always a failure in the model. The source fails at `groupby` for a repeated `platform` (analysis.py:41, 82). For the other columns, selecting a repeated name yields a two-column frame instead of one column (analysis.py:23-27). Whether and where the source fails on that frame is not modelled.
- Clicks and conversions are unbounded integers. pandas sums them as 64-bit integers (analysis.py:26-27, 82-87), and those sums wrap around on overflow. The model does not wrap them.
- Missing values: pandas skips NaN when summing and drops rows whose platform is NaN when grouping. Model rows have no missing values.
- Column types: the model takes the five columns as already typed. Non-numeric cells are not modelled.
- Errors raised by matplotlib itself, such as `pie` rejecting negative spend values.
- The `__main__` driver (analysis.py:168-170).

## Behaviour of the code worth noting

- Equal profits are not ordered by any tie-break (analysis.py:91).
- Rows with zero spend stay in the donut, since every stats row's spend is passed to `pie` (analysis.py:134; `Scenarios.ZeroSpendPanels`).
- Only the space character is replaced in column names, not other whitespace (analysis.py:17, 78).
- In the two-platform example the global CPL is 300 / 15 = 20 (`Scenarios.TwoPlatforms`).
