# Consumer segmentation analytics engine: a verified model

This project models the deterministic core of the analytics engine of a
consumer-segmentation dashboard (`AnalyticsEngine` in
`src/analytics_engine.py`). The engine runs one pipeline:

1. It generates a mobility table (one bike-share record per county).
2. It generates a long-format spending table (six categories plus a total
   row per county).
3. It pivots the spending table and inner-joins it with mobility on the
   county code.
4. It clusters the joined rows into four clusters, then profiles and
   characterizes each cluster.
5. It binds each cluster to one of four persona templates.
6. It lists a fixed catalogue of five business opportunities.
7. It aggregates the persona and opportunity figures into a market overview.
8. It projects personas and opportunities into parallel lists and a seasonal
   map for the dashboard.

Each random draw is an input. The model takes the standard deviate (standard
normal, standard gamma, standard exponential, a uniform value in [0, 1], a
beta value) and applies every location and scale the code writes, so the
per-county parameters and multipliers are all modelled. StandardScaler
followed by KMeans is a function from the feature matrix to a label vector
(`Segmentation.Clusterer`). Python floats are exact reals. `int()` is
truncation toward zero (`Numeric.Trunc`). Python `max`/`min` are
`Numeric.AtLeast`/`Numeric.AtMost`, with Python's tie rules.

Modules, in pipeline order:
- `Numeric`: truncation, clamping, sums and means.
- `Records`: the tables, the county list and the error type.
- `Generators`: the two data generators.
- `Features`: pivot, join and feature selection.
- `Segmentation`: clustering, profiles and the threshold classifiers.
- `Personas`: persona binding.
- `Opportunities`: the opportunity catalogue.
- `Intelligence`: the market overview.
- `Visualization`: the dashboard projection.
- `Pipeline`: `generate_comprehensive_analysis`.

A run fails, as an `Err` carrying an `AnalysisError`, in each case where the
code raises:
- a duplicate (county, category) pair in the pivot raises `DuplicateEntries`;
- a feature column missing from the joined table raises `MissingColumns`;
- fewer rows than clusters raises `TooFewRegions`;
- a label vector of the wrong length raises `LabelCountMismatch`;
- an empty cluster raises `UndefinedMean`, because its means are NaN and
  `int()` raises on them;
- an empty persona set raises `NoPersonas`, because `max()` runs over
  nothing.

The run itself (`Pipeline.GenerateComprehensiveAnalysis`) is proved to fail
exactly when the clusterer returns a label vector that is not seven long, or
that leaves one of the four clusters empty. The generated tables always pivot
and join cleanly.

Two failure cases are worth spelling out:
- Fewer joined rows than clusters has no check of its own. It fails with the
  clustering library's error, modelled as `TooFewRegions(count)`.
- An empty cluster is not refused at segmentation. Its profile has NaN
  means and is classified as low on every dimension. The run fails only at
  persona binding, when `int()` meets the NaN trip mean. That failure is
  `UndefinedMean`.

## Model

| member | source | states |
|---|---|---|
| Numeric.Trunc | src/analytics_engine.py:97-100 | int() of a float lies within one unit of it, toward zero, for either sign |
| Numeric.Clamp | src/analytics_engine.py:91-92 | max(lo, min(hi, x)) lies in [lo, hi], and a value already inside is unchanged |
| Numeric.AtLeast | src/analytics_engine.py:90 | max(lo, x) is at least lo and at least x, and is one of them |
| Numeric.AtMost | src/analytics_engine.py:345 | min(hi, x) is at most hi and at most x, and is one of them |
| Numeric.MeanBounds | src/analytics_engine.py:235-238 | the mean of a non-empty column lies within any bounds every entry lies within |
| Numeric.SumDivided | src/analytics_engine.py:160 | dividing every amount by the total divides the sum by the total |
| Records.CategoriesDistinct | src/analytics_engine.py:117 | the six spending categories are pairwise different and none is the total row |
| Records.CountiesWellFormed | src/analytics_engine.py:58-67 | the seven county codes are distinct and each has a display name |
| Generators.TripSplit | src/analytics_engine.py:97-100 | member and casual trip counts are nonnegative and together at most the truncated total |
| Generators.MobilityParamsFor | src/analytics_engine.py:72-87 | Manhattan, Chicago and Los Angeles have their own normals and the rest share one; every spread is positive, mean trips lie in [8000, 25000], mean duration in [12, 20] and mean member ratio in [0.65, 0.85] |
| Generators.MobilityRecord | src/analytics_engine.py:70-108 | total trips at least 1000; duration in [5, 30]; member ratio in [0.3, 0.95]; member plus casual trips at most total, each nonnegative; the beta/gamma/exponential ratios within their ranges for in-range draws |
| Generators.MobilityTable | src/analytics_engine.py:69-110 | one mobility record per county, and the table's county column is the county list in order |
| Generators.GenerateMobility | src/analytics_engine.py:69-110 | one record per county in county order, each the record of its own draw, each satisfying the clamping bounds |
| Generators.SpendingMultiplier | src/analytics_engine.py:122-133 | the county multiplier lies in [1.0, 1.8] and exceeds 1.0 exactly for Manhattan, Seattle, Boston, Los Angeles and Chicago |
| Generators.CategoryGamma | src/analytics_engine.py:138-149 | every category's gamma has shape at least 2 and scale at least 30000, so a mean of at least 60000 before the multiplier |
| Generators.CategoryAmount | src/analytics_engine.py:138-151 | every category amount is at least 10000 and is the floor or the scaled gamma amount, whichever is larger |
| Generators.TotalIsPositive | src/analytics_engine.py:151-152 | a county's running total is at least 60000, so each proportion is defined |
| Generators.CountyRows | src/analytics_engine.py:154-169 | a county contributes seven rows, all carrying its code, the last being the total row with proportion 1.0 |
| Generators.CountyRowsShape | src/analytics_engine.py:154-169 | a county emits its six categories in order, each at least the floor, then a total row whose amount is the sum of the floored amounts and whose proportion is 1.0 |
| Generators.ProportionsSumToOne | src/analytics_engine.py:155-161 | the category proportions of a county sum to exactly 1 |
| Generators.SpendingTable | src/analytics_engine.py:119-171 | the spending table holds seven rows per county |
| Generators.SpendingTableAt | src/analytics_engine.py:120-169 | row p of the spending table is row p mod 7 of county p div 7 |
| Generators.SpendingTableFloor | src/analytics_engine.py:120-169 | every category row of the table is at least the floor; every seventh row is the county's total, with proportion 1.0 and amount the sum of the six category rows before it |
| Generators.CountySpending | src/analytics_engine.py:135-169 | the two loops over categories (running total, then rows) produce exactly the county's seven rows |
| Generators.GenerateSpending | src/analytics_engine.py:119-171 | the generated table is every county's seven rows in county order |
| Features.Pivot | src/analytics_engine.py:208 | pivoting fails only with the duplicate-entries error |
| Features.PivotSpec | src/analytics_engine.py:208 | pivoting succeeds if and only if no (county, category) pair repeats, and then every cell holds the one row's amount for that pair and nothing else |
| Features.PivotKeys | src/analytics_engine.py:208 | the pivot's index is the set of spending counties and its columns the set of categories |
| Features.FilledCell | src/analytics_engine.py:208 | fillna(0): a present cell keeps its amount and an absent one is 0 |
| Features.SpendingColumns | src/analytics_engine.py:208 | a county's filled pivot row has exactly the pivot's columns, each filled as fillna(0) fills it |
| Features.MergeRows | src/analytics_engine.py:209 | the inner join has at most as many rows as mobility, and every joined row's county is in the pivot and carries that county's filled row |
| Features.Merge | src/analytics_engine.py:208-209 | the joined table has the pivot's columns, at most one row per mobility row, and every row has exactly those columns |
| Features.MergeSound | src/analytics_engine.py:209 | the join has at most as many rows as mobility, and every joined row is a mobility row whose county has spending, with that county's zero-filled columns |
| Features.MergeComplete | src/analytics_engine.py:209 | every mobility row whose county has spending appears in the join |
| Features.MergeKeepsAll | src/analytics_engine.py:209 | when every county has spending, the join keeps all mobility rows in order |
| Features.MergeWellFormed | src/analytics_engine.py:208-209 | every joined row carries exactly the pivot's columns |
| Features.JoinMembership | src/analytics_engine.py:208-209 | a county is in the joined table if and only if it has both a mobility row and spending rows |
| Features.MissingCategoryIsZero | src/analytics_engine.py:208 | a category that occurs in the table but not for a joined county is present with value 0 in that county's row |
| Features.FeatureMatrix | src/analytics_engine.py:212-213 | selecting the features fails, naming the absent columns, exactly when a feature category is missing; otherwise row i gives the vector (total trips, member ratio, duration, restaurants, retail, entertainment) of joined row i |
| Features.AssembleFeatures | src/analytics_engine.py:207-209 | assembly succeeds exactly when the pivot does; the result is the join of mobility with the pivot, well formed, with one column per category present |
| Segmentation.MobilityLevel | src/analytics_engine.py:256-262 | high iff the mean trips exceed 15000; medium iff above 8000 and not above 15000; low otherwise, also for the NaN mean of an empty cluster |
| Segmentation.EngagementLevel | src/analytics_engine.py:265-271 | high iff the mean member ratio exceeds 0.8; medium iff above 0.6 and not above 0.8; low otherwise |
| Segmentation.DiningPreference | src/analytics_engine.py:274-280 | high iff the mean restaurant spending exceeds 150000; medium iff above 80000 and not above 150000; low otherwise |
| Segmentation.ClassifyMonotone | src/analytics_engine.py:256-280 | each classification is monotone in its mean |
| Segmentation.MeansOf | src/analytics_engine.py:236-239 | a cluster's means are undefined exactly when it has no rows; otherwise each mean times the row count is its column's sum |
| Segmentation.Characterize | src/analytics_engine.py:251-282 | an undefined mean gives low on all three dimensions; otherwise mobility, engagement and dining are classified from the mean trips, ratio and restaurant spending, and the duration plays no part |
| Segmentation.Members | src/analytics_engine.py:230 | the rows of cluster k number as many as the labels equal to k, and all come from the table |
| Segmentation.ProfileOf | src/analytics_engine.py:229-241 | profile k has id k, a size equal to its county list's length and to the count of label k, undefined means exactly when empty, and the characteristics of its means |
| Segmentation.ProfileClusters | src/analytics_engine.py:228-241 | the loop yields the four profiles of clusters 0..3 in order |
| Segmentation.LabelCountsSum | src/analytics_engine.py:229-234 | with labels in 0..3, the four cluster sizes add up to the number of labels |
| Segmentation.PartitionSizes | src/analytics_engine.py:229-234 | with labels in 0..3, the four profile sizes add up to the row count |
| Segmentation.PartitionCounties | src/analytics_engine.py:229-235 | with labels in 0..3, the four county lists together are exactly the table's counties, as a multiset |
| Segmentation.MemberCounty | src/analytics_engine.py:230-235 | a county is in cluster k's list iff some row of it carries label k |
| Segmentation.ExactlyOneCluster | src/analytics_engine.py:230-235 | with distinct counties, a row's county is in cluster k's list iff its label is k |
| Segmentation.EmptyCluster | src/analytics_engine.py:231-238 | a profile's means are undefined iff no label names its cluster |
| Segmentation.ClusterRatioBounds | src/analytics_engine.py:236 | a cluster's mean member ratio lies within any bounds all rows' ratios lie within |
| Segmentation.Cluster | src/analytics_engine.py:207-225 | duplicate pairs and missing feature columns fail with their errors; after them, fewer than four joined rows fail with TooFewRegions, a label vector of the wrong length fails with LabelCountMismatch, and otherwise the result is the join with the clusterer's labels on its feature matrix |
| Segmentation.PerformSegmentation | src/analytics_engine.py:203-249 | fails exactly when clustering fails, with its error; otherwise four profiles, profile k that of cluster k |
| Personas.TemplateNamesDistinct | src/analytics_engine.py:291-328 | there are four templates with four different names |
| Personas.SeasonalOf | src/analytics_engine.py:351-356 | for in-range draws the seasonal multipliers lie in [0.9, 1.2], [1.1, 1.5], [0.8, 1.1] and [0.5, 0.8] |
| Personas.MarketValueBounds | src/analytics_engine.py:335 | the truncated market value lies between 15 and 35 per head of the population |
| Personas.PersonaOf | src/analytics_engine.py:330-367 | fails exactly on an empty cluster; otherwise copies template i mod 4, cluster ids [cluster id], population size times 50000, effectiveness min(0.95, 0.6 + 0.3·mean ratio + U(0, 0.1)), so at most 0.95 and at least 0.6 for a nonnegative ratio, market value within 15 to 35 per head, the seasonal multipliers of its draw, and mobility and spending profiles holding int() of the mean trips and mean restaurant spending, the mean ratio and duration, and the cluster's levels |
| Personas.GeneratePersonas | src/analytics_engine.py:330-369 | succeeds iff every profile has defined means; else fails at the first empty cluster; on success persona i is that of profile i |
| Opportunities.IdentifyOpportunities | src/analytics_engine.py:371-427 | five opportunities with distinct types and positive sizes totalling 1,480,000, each targeting persona template names |
| Opportunities.CatalogueTotal | src/analytics_engine.py:374-425 | the catalogue's market sizes sum to 1,480,000 |
| Opportunities.CatalogueTargetsTemplates | src/analytics_engine.py:374-425 | every target segment is a persona template's name |
| Opportunities.EveryTemplateTargeted | src/analytics_engine.py:374-425 | every persona template is targeted by some opportunity |
| Intelligence.Effectiveness | src/analytics_engine.py:474 | one effectiveness per persona, in persona order |
| Intelligence.TopMarketValue | src/analytics_engine.py:487 | the largest market value is at least every persona's and is some persona's |
| Intelligence.GenerateMarketIntelligence | src/analytics_engine.py:468-490 | fails exactly for no personas; otherwise the market and population totals, the segment count, the opportunity total, the mean effectiveness, the top segment value and a fifth of the opportunity total |
| Intelligence.TotalMarketBounds | src/analytics_engine.py:472-473 | when each persona's value is 15 to 35 per head, so is the total market of the total population |
| Intelligence.AverageEffectivenessBounds | src/analytics_engine.py:474 | the mean effectiveness keeps any upper or lower bound every persona keeps |
| Intelligence.TopWithinTotal | src/analytics_engine.py:472-487 | with nonnegative values the top segment never exceeds the total market |
| Visualization.MarketAnalysisOf | src/analytics_engine.py:527-532 | one name, value, population and effectiveness per persona, in persona order |
| Visualization.OpportunityAnalysisOf | src/analytics_engine.py:535-540 | one type, size, ROI range and investment level per opportunity, in order |
| Visualization.SeasonalIndex | src/analytics_engine.py:543-545 | the dictionary after storing the personas in order: the last persona's name maps to its trends |
| Visualization.SeasonalIndexKeys | src/analytics_engine.py:543-545 | the seasonal map's keys are exactly the persona names |
| Visualization.SeasonalIndexLast | src/analytics_engine.py:543-545 | the last persona with a name supplies that name's trends |
| Visualization.SeasonalIndexValue | src/analytics_engine.py:543-545 | every entry is the trends of the last persona carrying its name |
| Visualization.SeasonalMap | src/analytics_engine.py:543-545 | the loop builds exactly the name-keyed map of the personas stored in order |
| Visualization.CreateVisualizations | src/analytics_engine.py:520-552 | the projection is the two list sets and the seasonal map of the input |
| Visualization.MarketListsMatchTotals | src/analytics_engine.py:528-530 | the market-value and population lists sum to the overview's market and population totals |
| Visualization.OpportunityListMatchesTotal | src/analytics_engine.py:537 | the market-size list sums to the overview's opportunity value |
| Pipeline.GeneratedSpendingNoDuplicates | src/analytics_engine.py:120-169 | the generated spending table never repeats a (county, category) pair |
| Pipeline.GeneratedSpendingCovers | src/analytics_engine.py:120-169 | every county has spending rows and every feature category occurs |
| Pipeline.GeneratedClustering | src/analytics_engine.py:207-225 | on the generated tables assembly succeeds, the join keeps all seven counties in order, features exist, and clustering fails only on a wrong-length label vector |
| Pipeline.GeneratedRows | src/analytics_engine.py:92 | the clustered rows are the seven counties, each with a member ratio in [0.3, 0.95] |
| Pipeline.PartitionPopulation | src/analytics_engine.py:333 | with labels in 0..3 the four persona populations total 50000 per clustered county |
| Pipeline.ProfilesOfClusters | src/analytics_engine.py:229-238 | profile k has id k and undefined means exactly when label k is absent |
| Pipeline.PersonaIdentity | src/analytics_engine.py:330-343 | persona k has cluster ids [k], template k's name and population 50000 times cluster k's size |
| Pipeline.PersonaEffectiveness | src/analytics_engine.py:336-345 | the mean effectiveness of a run is at most 0.95, and at least 0.6 for in-range draws |
| Pipeline.PersonaMarket | src/analytics_engine.py:335-344 | for in-range draws a run's total market lies between 15 and 35 per head |
| Pipeline.AnalyzeSegments | src/analytics_engine.py:34-38 | after segmentation, fails exactly when some cluster is empty, naming one; otherwise persona k is the persona of profile k and draw k (effectiveness at most 0.95 each), the opportunities are the catalogue, the insights are the market intelligence of those personas and opportunities, and the overview facts of AnalysisFacts hold |
| Pipeline.GenerateComprehensiveAnalysis | src/analytics_engine.py:24-52 | fails exactly on a clustering failure or an empty cluster; otherwise four personas, persona k the persona of cluster k's profile with template k and effectiveness at most 0.95, the catalogue as opportunities, the market intelligence of both as insights, four segments, opportunity value 1,480,000, population 350,000 when labels are in range, effectiveness and market bounds, and record counts 7, 49, 7 |

## Left out

- Random sampling and `np.random.seed`: draws are parameters, and the seeded generator's particular values are not modelled.
- StandardScaler and KMeans: one opaque function from the feature matrix to labels. Only the length and range of its output are reasoned about.
- `feature_importance` from the cluster centres and the constant silhouette score 0.65 are not in the model. They are a library result and a fixed literal.
- `round()` to 0, 1, 2 or 3 decimals is not modelled. Amounts, proportions, ratios, durations, effectiveness and seasonal multipliers are kept exact. `Personas.PersonaOf` states the effectiveness before rounding.
- Generators.ProportionsSumToOne: the sum of exactly 1 holds for the unrounded ratios only. The code emits `round(amount / total, 3)`, and those emitted proportions need not sum to 1: with all six amounts at the 10000 floor each is round(1/6, 3) = 0.167, and the six sum to 1.002.
- Generators.GenerateSpending: the spending amounts are the unrounded floored amounts. The code emits `round(amount, 0)`, which can differ from the total row's sum by rounding.
- The mean effectiveness is `np.mean` computed exactly, with no float rounding.
- `datetime.now()` timestamps (`analysis_date`, `generated_at`), `print`, and the f-string formatting of the key-insight texts are not modelled. The key insights' two numbers are modelled (the top segment value and a fifth of the opportunity total); their text is not.
- The fixed narrative lists are left out: strategic recommendations, competitive advantages, risk factors, and the `_generate_predictive_insights` literal. They are constants with no behaviour.
- `_generate_demographic_data` is left out. Its table is random perturbations of constants that nothing downstream reads. Only its record count, one per county, enters the data summary.
- `build_static.py` is not part of this model. It is HTML templating, file I/O and a fallback page.
- NaN arithmetic in general is not modelled. The one place it matters, an empty cluster's means, is an undefined `Option`: the classifiers treat it as low, as NaN comparisons are false, and persona binding fails on it.
- Segmentation.Clusterer: the zero-variance handling of standardisation belongs to the library and is not modelled.
