# Weighted heat-risk prioritisation, in Dafny

This project models the batch side of a barangay heat-risk system.

The **weighted heat-risk pipeline** (`ai/weighted_heat_risk_pipeline.py`) reads a
per-barangay table (barangay id, ISO date, temperature, facility-distance proxy,
population, density). It then:

- normalises the table's schema (`load_data`);
- computes a per-barangay trailing rolling mean of temperature;
- selects two or three equally weighted features;
- fills gaps with the column mean and min-max scales every column (`prepare_features`);
- takes the K-Means cluster labels;
- scores each cluster by the weighted mean of its members' raw feature values;
- turns the rank of that score into a risk level (`run_kmeans_and_risk_levels`);
- keeps only the rows of the latest date (`main`).

The **fetch script** (`ai/fetch_pipeline_data.py`) turns the backend's decoded JSON
responses into that table. It:

- converts facility counts into a scarcity proxy `1/(1+n)`;
- prefers a numeric heat index to an air temperature;
- normalises population records;
- fills in missing facility counts;
- assembles the CSV rows.

How the code's constructs are represented:

- A DataFrame is a `Schema.Frame`: its set of columns and its rows in order.
- A missing cell (NaN) of temperature, facility_distance or facility_score is `None`. Population and density cells are a `Schema.Cell`: a number, text or `Blank`.
- A Python dictionary is a `Dicts.Dict`: a sequence of (key, value) entries in insertion order.
- A parsed JSON value is a `Json.Json`.
- The steps that add DataFrame columns one at a time, and the loops that fill
  dictionaries, are methods. They are proved against the functions that
  compute columns and entries.
- Reals are exact.

Modules, in dependency order:

- `Wrappers`: `Option` and `Result`.
- `Order`: Python string order.
- `Stats`: sums, NaN-skipping means, minima and maxima, dot products.
- `Schema`: `load_data`.
- `Scaling`: `fillna` with the mean, then `MinMaxScaler`.
- `Features`: `prepare_features`.
- `Ranking`: `rank(method="first")`.
- `Clustering`: severities and levels.
- `Report`: `main`'s composition and the latest-date filter.
- `Dicts`: Python dictionaries.
- `Json`: decoded JSON and Python conversions.
- `Fetch`: the fetch script's transforms.

The model follows the code, including three places where its behaviour is not the obvious one:

- **Severity uses raw columns.** Severity is not computed from the scaled
  features. The code groups the rows by cluster and takes the means of the
  raw feature columns, unscaled and unfilled (ai/weighted_heat_risk_pipeline.py:92).
  So a cluster whose members all lack a value has a NaN severity, and
  `astype(int)` then raises. That is `ClusterError.NaNSeverity`.
- **Empty input raises.** Empty input does not give an empty,
  header-only report. The code raises inside `MinMaxScaler.fit`. That is
  `PrepareError.NoSamples`.
- **Levels cover only clusters that occur.** The levels are not always
  1..k. The code ranks only the clusters that occur, so the
  levels are exactly 1..m, where m is the number of non-empty clusters, and
  m ≤ k.

## Model

| member | source | states |
|---|---|---|
| Schema.LoadData | ai/weighted_heat_risk_pipeline.py:28-39 | Success exactly when barangay_id, date and temperature are present and facility_distance or facility_score is. The error names the first missing column in check order, or the facility pair. On success the table has all six pipeline columns. facility_distance is copied from facility_score when it was absent. Absent density becomes 0.0 and absent population 0. Every other cell is unchanged. |
| Features.SortRows | ai/weighted_heat_risk_pipeline.py:51 | The result is sorted by (barangay_id, date) in Python string order, with ids taken as text, and is a permutation of the input. The sort is stable: for every key, the rows with that key (KeyMates) are the input's rows with that key, in input order. |
| Features.Insert | ai/weighted_heat_risk_pipeline.py:51 | Inserting into a sorted table keeps it sorted and adds exactly the new row. |
| Features.RowLessEqTotal | ai/weighted_heat_risk_pipeline.py:51 | Any two rows are comparable under the (barangay_id, date) order. |
| Features.RowLessEqTransitive | ai/weighted_heat_risk_pipeline.py:51 | The (barangay_id, date) order is transitive. |
| Features.SeveralDatesPermutation | ai/weighted_heat_risk_pipeline.py:51-53 | Sorting does not change the set of distinct dates, so `nunique() > 1` is the same before and after. |
| Features.GroupTemperaturesAppend | ai/weighted_heat_risk_pipeline.py:54 | A barangay's group of a concatenated table is the concatenation of its groups. |
| Features.GroupPrefix | ai/weighted_heat_risk_pipeline.py:54-56 | A row's group within the rows up to it is a prefix of its full group and ends at the row's position in the group. |
| Features.PositionInGroup | ai/weighted_heat_risk_pipeline.py:54-56 | A row's position in its barangay's group lies within that group. |
| Features.RollingIsTrailingMean | ai/weighted_heat_risk_pipeline.py:54-56 | Each row's rolling value is the NaN-skipping mean of the last min(window, p+1) temperatures of its barangay up to and including it, where p is its position in date order. |
| Features.Rolling | ai/weighted_heat_risk_pipeline.py:55 | One value per temperature. RollingIsTrailingMean, RollingWindowOne and RollingWithinRange state what each value is: the NaN-skipping mean of the trailing window, min_periods=1. |
| Features.RollingColumn | ai/weighted_heat_risk_pipeline.py:54-56 | One value per row, taken from the row's own barangay group at its position in the group. RollingIsTrailingMean states each one as the mean of the last min(window, p+1) group temperatures. |
| Features.RollingWindowOne | ai/weighted_heat_risk_pipeline.py:54-56 | With window 1 the rolling column equals the temperature column. |
| Features.RollingWithinRange | ai/weighted_heat_risk_pipeline.py:54-56 | A rolling value lies between any bounds of the temperatures. |
| Features.GroupMembersWithin | ai/weighted_heat_risk_pipeline.py:54 | Bounds on all temperatures hold for every barangay's group. |
| Features.TempRollingColumn | ai/weighted_heat_risk_pipeline.py:53-58 | When rolling is asked for and there are several dates, temp_rolling is the trailing group mean. Otherwise it equals temperature row for row. |
| Features.CoerceDensity | ai/weighted_heat_risk_pipeline.py:61 | A numeric density is kept. Text or an empty cell becomes 0. |
| Features.FeatureRows | ai/weighted_heat_risk_pipeline.py:53-61 | Each row keeps its CSV fields, with temp_rolling added, facility_score equal to facility_distance and density coerced. |
| Features.SelectFeatures | ai/weighted_heat_risk_pipeline.py:63-69 | Three features (temp_rolling, facility_score, density) are chosen exactly when some density is > 0; otherwise two (temp_rolling, facility_score). There is one weight per feature, each 1/len, and the weights sum to 1. |
| Features.ScaledMatrix | ai/weighted_heat_risk_pipeline.py:71-74 | One column per feature, one entry per row. Each column is the mean-filled, min-max-scaled feature column. Every value lies in [0, 1]. |
| Features.PrepareFeatures | ai/weighted_heat_risk_pipeline.py:51-76 | InvalidWindow exactly when rolling is used with window < 1. NoSamples exactly when the table is empty. On success the rows are exactly SortRows of the input (sorted, a permutation, stable among equal keys), with facility_score, coerced density and temp_rolling (rolling or identity, as above). The features and weights are SelectFeatures of the densities, and the matrix is ScaledMatrix. |
| Stats.MeanPresent | ai/weighted_heat_risk_pipeline.py:92 | pandas' NaN-skipping mean: defined exactly when some value is present, and then the mean times the number of present values is their sum. |
| Scaling.FillWithMean | ai/weighted_heat_risk_pipeline.py:72 | Present cells are unchanged. Missing cells become the NaN-skipping column mean. |
| Scaling.FillLeavesNoGap | ai/weighted_heat_risk_pipeline.py:72 | After filling, a column with at least one value has no gap. |
| Scaling.FillKeepsRange | ai/weighted_heat_risk_pipeline.py:72 | Filling with the mean keeps the column's minimum and maximum. |
| Scaling.MinMaxScale | ai/weighted_heat_risk_pipeline.py:73-74 | One output per input. A cell has a value exactly when its input has one. |
| Scaling.ScaledAt | ai/weighted_heat_risk_pipeline.py:73-74 | A present cell lies in the column's range and scales to (x - min) / (max - min), or to (x - min) / 1 when max = min. |
| Scaling.ScaledWithinUnit | ai/weighted_heat_risk_pipeline.py:73-74 | Every scaled value lies in [0, 1]. |
| Scaling.ScaledMinIsZero | ai/weighted_heat_risk_pipeline.py:73-74 | The column minimum scales to 0. |
| Scaling.ScaledMaxIsOne | ai/weighted_heat_risk_pipeline.py:73-74 | The column maximum scales to 1 when the column is not constant. |
| Scaling.ConstantColumnScalesToZero | ai/weighted_heat_risk_pipeline.py:73-74 | A constant column scales to all 0. |
| Scaling.ScalingPreservesOrder | ai/weighted_heat_risk_pipeline.py:73-74 | Scaling keeps both ≤ and < between cells of one column. |
| Scaling.ScaleValueWithinUnit | ai/weighted_heat_risk_pipeline.py:73-74 | A value within [min, max] scales into [0, 1]. |
| Scaling.ScaleValueMonotone | ai/weighted_heat_risk_pipeline.py:73-74 | The scaling map is monotone and strictly monotone. |
| Clustering.ClusterMeans | ai/weighted_heat_risk_pipeline.py:92 | One mean per feature: the NaN-skipping mean of that raw feature over the cluster's members. |
| Clustering.MemberValuesAt | ai/weighted_heat_risk_pipeline.py:92 | A cluster's member values of a feature are, in order, the feature values of its member rows. |
| Clustering.Severity | ai/weighted_heat_risk_pipeline.py:93 | `cluster_means.dot(weights)`: a value exactly when every cluster mean is present (else NaN). SeverityIsMeanScore states the value as the mean of the members' weighted scores. |
| Clustering.SeverityIsMeanScore | ai/weighted_heat_risk_pipeline.py:92-93 | When every member has all its values, the severity (the weighted dot product of the cluster means) equals the mean over the members of their weighted scores. |
| Clustering.ClusterIdsSize | ai/weighted_heat_risk_pipeline.py:90-92 | With labels in [0, k) at most k clusters occur, and at least one when there are rows. |
| Clustering.Severities | ai/weighted_heat_risk_pipeline.py:92-93 | There is a severity for exactly the clusters that occur, each the cluster's Severity. |
| Clustering.RunKMeansAndRiskLevels | ai/weighted_heat_risk_pipeline.py:88-95 | The errors come in scikit-learn's and pandas' order: k < 1; NaN in the scaled matrix; fewer rows than clusters; a cluster with NaN severity. On success each row keeps its features, gets its label as cluster, and gets as risk level the rank of its cluster's severity. |
| Clustering.LevelsInRange | ai/weighted_heat_risk_pipeline.py:94-95 | Every level lies in 1..m, where m, the number of clusters that occur, is at most k. |
| Clustering.SameClusterSameLevel | ai/weighted_heat_risk_pipeline.py:95 | Rows of the same cluster share a level. |
| Clustering.LevelsFollowSeverity | ai/weighted_heat_risk_pipeline.py:94 | A strictly more severe cluster gets a strictly higher level. Equal severities go by ascending cluster id. A higher level implies coming later in that order. |
| Clustering.LevelsAreOneToM | ai/weighted_heat_risk_pipeline.py:94-95 | The levels the rows receive are exactly 1..m. |
| Clustering.PreparedIsWellFormed | ai/weighted_heat_risk_pipeline.py:71-76 | What prepare_features returns has one weight per feature and one scaled column per feature, each with one entry per row. |
| Ranking.Levels | ai/weighted_heat_risk_pipeline.py:94 | The level set 1..m has exactly m members. |
| Ranking.BeforeTransitive | ai/weighted_heat_risk_pipeline.py:94 | The (severity, cluster id) order is transitive. |
| Ranking.BeforeStrictTotal | ai/weighted_heat_risk_pipeline.py:94 | The (severity, cluster id) order is strict and total on distinct clusters. |
| Ranking.Rank | ai/weighted_heat_risk_pipeline.py:94 | `rank(method="first")`: at least 1. RankBounds, RankIncreases, RankInjective, RanksAreLevels and RankOneIsLowest state it is a bijection onto 1..m ordered by severity, lower id first on ties. |
| Ranking.RankIncreases | ai/weighted_heat_risk_pipeline.py:94 | A cluster earlier in the order has a strictly smaller rank. |
| Ranking.RankBounds | ai/weighted_heat_risk_pipeline.py:94 | Every rank lies in 1..number of clusters. |
| Ranking.RankInjective | ai/weighted_heat_risk_pipeline.py:94 | Distinct clusters get distinct ranks. |
| Ranking.RanksOfSize | ai/weighted_heat_risk_pipeline.py:94 | A set of clusters has as many ranks as members. |
| Ranking.RanksAreLevels | ai/weighted_heat_risk_pipeline.py:94 | The ranks of all clusters are exactly 1..m, a bijection. |
| Ranking.RankOneIsLowest | ai/weighted_heat_risk_pipeline.py:94 | Rank 1 goes exactly to the cluster that comes before all others: the lowest severity, lowest id on ties. |
| Report.LatestDate | ai/weighted_heat_risk_pipeline.py:140 | The latest date is some row's date and no row's date is later in string order. |
| Report.PositionsOn | ai/weighted_heat_risk_pipeline.py:141 | The positions of the rows the date filter keeps: each is dated d, they strictly increase, and there are as many as rows dated d. |
| Report.RowsOn | ai/weighted_heat_risk_pipeline.py:141 | The report has one row per row dated d. Its j-th row is the projection (barangay_id, risk_level, cluster) of the j-th row dated d: PositionsOn gives those rows' positions, strictly increasing, as many as there are rows dated d. So every row dated d appears once, in table order, duplicates included. |
| Report.LatestReport | ai/weighted_heat_risk_pipeline.py:140-141 | Empty for an empty table. Otherwise non-empty, and its j-th row is the projection of the j-th row dated with the latest date, in table order. |
| Report.CountOnAttained | ai/weighted_heat_risk_pipeline.py:140-141 | Every row's date has at least one row. |
| Report.LatestReportInRange | ai/weighted_heat_risk_pipeline.py:140-141 | A non-empty table gives a non-empty report. The report's levels and clusters are those of its source rows. |
| Report.RunPipeline | ai/weighted_heat_risk_pipeline.py:132-141 | load_data fails exactly when the header is unacceptable. A successful run reports at least one row, every one with a level in 1..k and a cluster in [0, k). |
| Fetch.FacilityCountToDistance | ai/fetch_pipeline_data.py:88-90 | d·(1+n) = 1. d(0) = 1. For n ≥ 0, d lies in (0, 1]. Counts below -1 give negative values. |
| Fetch.DistanceDecreasing | ai/fetch_pipeline_data.py:88-90 | For counts ≥ 0 the proxy is strictly decreasing. |
| Fetch.DistanceDeterminesCount | ai/fetch_pipeline_data.py:88-90 | The count is recovered as 1/d - 1. |
| Fetch.NonNullFloats | ai/fetch_pipeline_data.py:35 | Succeeds exactly when float accepts every non-null value. Its errors are never AttributeError. |
| Fetch.NonNullFloatsLookup | ai/fetch_pipeline_data.py:35 | The result has distinct keys, all from the input. Every input key with a non-null value maps to float of that value, and a null one is absent. |
| Fetch.GetBarangayTemperatures | ai/fetch_pipeline_data.py:34-35 | AttributeError exactly when the response, or a truthy temperatures entry, is not an object. Otherwise it is the non-null readings as floats. |
| Fetch.HeatChoice | ai/fetch_pipeline_data.py:53-62 | A numeric heat_index_c wins and is flagged. Otherwise a numeric temp_c is used, unflagged. An entry that is not an object, or has neither, gives nothing. |
| Fetch.Selected | ai/fetch_pipeline_data.py:50-62 | The collected readings have distinct keys, all from the input. |
| Fetch.CollectReadings | ai/fetch_pipeline_data.py:50-62 | The loop over the risks entries collects exactly the readings Selected describes, and raises used_hi exactly when some entry gave a numeric heat_index_c. |
| Fetch.SelectedStep | ai/fetch_pipeline_data.py:52-62 | One loop iteration puts the entry's reading, if any, and raises the flag exactly for a heat-index entry. |
| Fetch.SelectedLookup | ai/fetch_pipeline_data.py:52-62 | Each id's reading is the one its own entry gives. |
| Fetch.GetBarangayHeatRisk | ai/fetch_pipeline_data.py:49-64 | AttributeError exactly when the response, risks or meta is not an object. Otherwise the readings map every id to its entry's choice. used_hi is true exactly when some entry has a numeric heat_index_c. The source is meta's truthy temperaturesSource or "". |
| Fetch.NormalizeEntry | ai/fetch_pipeline_data.py:103-111 | A non-object gives (0, 0.0), and so do missing keys. When int accepts the population and float the density, the record is (PyInt of the population, PyFloat of the density), a falsy value read as 0. So floats are truncated, bools are 0 or 1, and strings are parsed. A population or density that int/float refuses resets both to 0. |
| Fetch.GetBarangayPopulationDensity | ai/fetch_pipeline_data.py:99-112 | A non-object response gives {}. Otherwise the keys are exactly the response's keys, in order, each with its normalised record, and they are distinct. |
| Fetch.FillMissingCounts | ai/fetch_pipeline_data.py:204-207 | Nothing changes unless there are fewer counts than barangays. Old counts keep their places and values. Afterwards every barangay has a count, and new counts are 0 for ids that had none. get(id, 0) is unchanged for every id. |
| Fetch.AssembleRows | ai/fetch_pipeline_data.py:226-236 | ZeroDivisionError exactly when some barangay's count (default 0) is -1, and the error names such a barangay. Otherwise there is one row per temperature reading, in order, all dated today. Each row has the barangay's facility proxy and its population and density (0 when the id is missing). |
| Fetch.AssemblyIgnoresFill | ai/fetch_pipeline_data.py:204-207 | Row assembly gives the same rows with or without the fill-in. |
| Fetch.AssembledDistancesInUnit | ai/fetch_pipeline_data.py:226-236 | With non-negative counts assembly succeeds and every facility proxy lies in (0, 1]. |
| Fetch.AsFrame | ai/fetch_pipeline_data.py:226-236 | The written table, taken as the pipeline's input with barangay ids as text, has the six columns load_data accepts, with every reading present. |
| Fetch.SnapshotIsNotRolled | ai/fetch_pipeline_data.py:229 | A fetched snapshot has one date, so prepare_features does not roll it. |
| Json.PyFloat | ai/fetch_pipeline_data.py:35 | float of a number is its value (a bool is 0 or 1). Of a string it is the parsed value, or ValueError when the string does not parse. Of null, a list or an object it is TypeError. |
| Json.PyInt | ai/fetch_pipeline_data.py:107 | int of a float is its truncation toward zero (Truncate), so within 1 of it. An int is kept, a bool is 0 or 1. A string gives the parsed value, or ValueError when it does not parse. Null, a list or an object give TypeError. |
| Json.Truncate | ai/fetch_pipeline_data.py:107 | Truncation toward zero: the result is within 1 of x, on x's side of zero. |

## Left out

- Network I/O is not modelled: every `requests` call, status codes and JSON decoding. The fetch transforms start from decoded responses.
- Both thread pools are not modelled, nor the order in which `as_completed` delivers the per-barangay counts.
- Process plumbing is not modelled: `argparse`, printing, exit codes, the choice between heat-risk and fallback temperatures, `datetime.now` (the date is a parameter), CSV reading, writing and appending, and the upload step.
- Python's reading of numeric strings in `int()` and `float()` is a parameter (`parseInt`, `parseFloat`). JSON `NaN`/`Infinity`, and the `OverflowError` of `int()` on them, are not represented, because reals are exact.
- Fetch.AssembleRows: does not round the temperature (2 places), the facility proxy (6) or the density (4), because reals are exact here; IEEE floating point is not modelled.
- `int(v)` of the batch counts is taken as already done: counts are integers.
- Reading the CSV into a DataFrame is not modelled. A `Frame` is the table after `pd.read_csv`, with type inference reduced to numbers, text and blanks. Text in the temperature, facility_distance or facility_score column cannot be represented, since those cells are numbers or `None`. pandas would read such a column as object dtype, and the rolling mean or MinMaxScaler would then raise; that error is not modelled.
- barangay_id is taken as text throughout. `pd.read_csv` infers an all-digit id column as int64; that inference is not modelled. For such ids pandas sorts numerically (9 before 10, where the model puts "10" before "9") and drops leading zeros ("007" is reported as 7).
- Clustering.RunKMeansAndRiskLevels: KMeans itself is not modelled. Initialisation, iterations and `random_state` belong to the library. The labels are an input, constrained only to lie in [0, k) with one per row when KMeans accepts the input.
- Report.RunPipeline: its contract states the error of the load step and the range of the report. Which of the later steps fails is stated by PrepareFeatures and RunKMeansAndRiskLevels, not repeated.
- Fetch.FacilityCountToDistance: requires a count other than -1, where Python raises ZeroDivisionError. AssembleRows models that error.
- Fetch.FillMissingCounts: when the batch returned at least as many counts as barangays but lacks some barangay (it has extra ids), no fill happens. The modelled contract says exactly that. Row assembly still defaults the missing count to 0 (AssemblyIgnoresFill).
- Only barangay_id, date and the five numeric columns (temperature, facility_distance, facility_score, population, density) are modelled. Other CSV columns pass through pandas untouched and are not represented.
