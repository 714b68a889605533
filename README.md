# E-commerce product tiering, modelled in Dafny

The script `python.przetwarzanie_e-commerce.py` reads a product table and
normalises its column names by stripping the prefixes `p.`, `kat.` and `so.`.
It then aggregates duplicate products: rows are grouped on (`TOW_KOD`, `NAZWA`),
`RATING` is summed per group and the other columns take the group's first value.
Finally it labels every product in the `cluster` column as `Hit`, `Dobry` (good)
or `Longtail`, separately for each category `NAZWA`:

- A category with fewer than 3 products is labelled `Longtail` throughout.
- A larger category is clustered into three groups by k-means on its min-max
  scaled ratings. The groups are sorted by their mean unscaled rating, and
  lowest, middle and highest become `Longtail`, `Dobry` and `Hit`.

The model has seven modules:

- `Wrappers` (`wrappers.dfy`) holds `Option`.
- `ColumnNames` (`column_names.dfy`): `str.replace`, the rename rule and the
  loop that builds and applies the rename map.
- `Records` (`records.dfy`): the row and key types, and the string and key
  order that groupby sorts by.
- `Aggregation` (`aggregation.dfy`): the group-by sum/first as a function, with
  its lemmas.
- `ClusterMeans` (`cluster_means.dfy`): per-cluster sums and counts, the loop
  that fills `cluster_means`, and exact comparison of means.
- `TierMapping` (`tier_mapping.dfy`): the ranking of the clusters by mean, the
  id-to-label dict and the properties of one clustered category. It holds both
  the stable ranking the rest of the model uses and CPython's ranking as the
  script computes it (see "## Findings").
- `Labelling` (`labelling.dfy`): the `cluster` column as an `array<Label>`, the
  per-category method that mutates it, and the loop over categories.

Modelling choices:

- Ratings are integers. A mean is a (sum, count) pair, and means are compared
  by cross-multiplication.
- A count of 0 is NaN, the mean of an empty cluster. Comparisons with it are
  false, as Python's `<` on NaN is.
- `MinMaxScaler` and `KMeans` become a parameter `kmeans: seq<int> -> seq<nat>`.
  It receives the category's unscaled ratings, since the scaling is a
  deterministic function of them.
- `WellFormed(kmeans)` states what scikit-learn guarantees for 3 or more rows:
  one id per row, each below 3.

## Model

| member | source | states |
|---|---|---|
| ColumnNames.RemoveAll | python.przetwarzanie_e-commerce.py:29-33 | `s.replace(p, '')` never makes a name longer; when it shortens or keeps it is stated by the next two rows |
| ColumnNames.RemoveAllShrinks | python.przetwarzanie_e-commerce.py:29-33 | if `p` occurs in `s`, the replace shortens `s` by at least `|p|` |
| ColumnNames.RemoveAllIdentity | python.przetwarzanie_e-commerce.py:29-33 | the replace leaves `s` unchanged if and only if `p` does not occur in it |
| ColumnNames.Rule | python.przetwarzanie_e-commerce.py:28-33 | a rule that fires names one of the three prefixes, and the column starts with it; no rule fires exactly when the column starts with none of them |
| ColumnNames.RuleIsTheMatchingPrefix | python.przetwarzanie_e-commerce.py:28-33 | the rule that fires is `Some(p)` exactly when `p` is one of `p.`, `kat.`, `so.` and the column starts with it; at most one rule fires |
| ColumnNames.Normalized | python.przetwarzanie_e-commerce.py:27-37 | a column keeps its name if and only if no rule fires; a renamed column loses at least the prefix that triggered its rule |
| ColumnNames.InnerOccurrencesRemoved | python.przetwarzanie_e-commerce.py:29 | occurrences after the leading prefix are removed too: `p.group.id` becomes `grouid` |
| ColumnNames.NormalizeColumns | python.przetwarzanie_e-commerce.py:26-37 | the map-building loop plus the rename give every column its normalised name, position by position |
| Records.KeyOf | python.przetwarzanie_e-commerce.py:67 | a row has a grouping key exactly when its category is not null, and the key is its (TOW_KOD, NAZWA) pair |
| Records.StrLess | python.przetwarzanie_e-commerce.py:67 | the string order that groupby's key sort uses never relates a string to itself |
| Records.KeyLess | python.przetwarzanie_e-commerce.py:67 | the key order (code first, then category) never relates a key to itself |
| Records.StrLessTransitive | python.przetwarzanie_e-commerce.py:67 | the string order used to sort keys is transitive |
| Records.StrLessTotal | python.przetwarzanie_e-commerce.py:67 | any two distinct strings are related one way or the other |
| Records.KeyLessOrder | python.przetwarzanie_e-commerce.py:67 | the (TOW_KOD, NAZWA) key order used for groupby's sort is a strict total order |
| Records.StrictlySortedUnique | python.przetwarzanie_e-commerce.py:67 | two strictly key-sorted sequences with the same keys are equal |
| Aggregation.SumFor | python.przetwarzanie_e-commerce.py:61 | the 'sum' aggregation of a key with no rows is 0 |
| Aggregation.SumForSingle | python.przetwarzanie_e-commerce.py:61 | a key carried by exactly one row sums to that row's rating |
| Aggregation.FirstIndex | python.przetwarzanie_e-commerce.py:62-64 | the row `first` reads is the earliest row with the key |
| Aggregation.GroupRow | python.przetwarzanie_e-commerce.py:61-67 | the aggregated row of a group carries that group's key |
| Aggregation.GroupOfUniqueRow | python.przetwarzanie_e-commerce.py:61-67 | when keys are unique, the aggregated row of a row's key is that row itself |
| Aggregation.SumOverCoveringKeys | python.przetwarzanie_e-commerce.py:61-67 | summing the group sums over a duplicate-free list that contains every present key gives the total rating of the keyed rows |
| Aggregation.TotalOfGroups | python.przetwarzanie_e-commerce.py:61-67 | the ratings of the aggregated rows add up to the group sums of their keys |
| Aggregation.SortedKeys | python.przetwarzanie_e-commerce.py:67 | the group keys are strictly ascending and are exactly the keys present in the input |
| Aggregation.Aggregate | python.przetwarzanie_e-commerce.py:61-67 | one row per distinct non-null key, keys ascending and unique; RATING is the group's sum; LONG_NAME_CLEAN comes from the group's first row |
| Aggregation.AggregatePreservesTotal | python.przetwarzanie_e-commerce.py:61-67 | the group sums add up to the total rating of the input rows that have a category |
| Aggregation.AggregateKeepsUniqueRows | python.przetwarzanie_e-commerce.py:67 | on rows whose keys are already unique, the aggregation outputs exactly the same rows |
| Aggregation.AggregateFixedPoint | python.przetwarzanie_e-commerce.py:67 | a table that is already keyed and sorted is returned unchanged |
| Aggregation.AggregateIdempotent | python.przetwarzanie_e-commerce.py:67 | aggregating twice equals aggregating once |
| Aggregation.ThreeRowScenario | python.przetwarzanie_e-commerce.py:61-67 | (P1,A,5), (P1,A,3), (P2,A,8) aggregate to (P1,A,8), (P2,A,8) |
| ClusterMeans.MeanLess | python.przetwarzanie_e-commerce.py:112-115 | the `<` that `sorted` applies to two cluster means; it is false whenever either mean is NaN (an empty cluster) |
| ClusterMeans.MeanLessIsQuotientLess | python.przetwarzanie_e-commerce.py:112-115 | on non-empty clusters, MeanLess holds exactly when the mean rating sum / count of the first is below that of the second |
| ClusterMeans.MeanLessOrder | python.przetwarzanie_e-commerce.py:112-115 | on non-empty clusters, the cross-multiplied mean comparison is a strict weak order |
| ClusterMeans.MeanOf | python.przetwarzanie_e-commerce.py:112 | a cluster's mean is defined (not NaN) if and only if some row carries its id |
| ClusterMeans.MeansOf | python.przetwarzanie_e-commerce.py:110-112 | `cluster_means` has keys 0, 1 and 2, and each entry holds its cluster's rating sum and row count |
| ClusterMeans.MeansOfUnique | python.przetwarzanie_e-commerce.py:110-112 | any dict with keys 0-2 holding each cluster's rating sum and row count is MeansOf |
| ClusterMeans.ComputeClusterMeans | python.przetwarzanie_e-commerce.py:110-112 | the `range(3)` loop fills the dict with each cluster's rating sum and row count |
| ClusterMeans.ClusterSizePositive | python.przetwarzanie_e-commerce.py:112 | a cluster's count is positive if and only if some row carries its id |
| ClusterMeans.ClusterSizesAddUp | python.przetwarzanie_e-commerce.py:130-132 | with ids in {0,1,2}, the three cluster sizes add up to the category's size |
| ClusterMeans.SeparatedMeans | python.przetwarzanie_e-commerce.py:110-115 | if every rating of cluster a is below every rating of cluster b, a's mean is strictly below b's |
| TierMapping.Text | python.przetwarzanie_e-commerce.py:119-121 | the string written to the `cluster` column (also the `''` of line 73 and the `'Longtail'` of line 91): `''` only for the blank label |
| TierMapping.TextInjective | python.przetwarzanie_e-commerce.py:119-121 | the three tier names and `''` are pairwise distinct, so the written string determines the label |
| TierMapping.InsertByMean | python.przetwarzanie_e-commerce.py:115 | stable insertion keeps the multiset of ids |
| TierMapping.PrecedesOrder | python.przetwarzanie_e-commerce.py:115 | on non-empty clusters, "lower mean, ties by lower id" is irreflexive, total and transitive |
| TierMapping.SortByMean | python.przetwarzanie_e-commerce.py:115 | the sort by mean is a permutation of its input |
| TierMapping.InsertByMeanInOrder | python.przetwarzanie_e-commerce.py:115 | inserting a larger id keeps the non-empty clusters in stable order by mean |
| TierMapping.SortByMeanInOrder | python.przetwarzanie_e-commerce.py:115 | sorting ascending ids puts the non-empty clusters in ascending mean order, ties towards the lower id |
| TierMapping.Ranked | python.przetwarzanie_e-commerce.py:115 | the ranking lists each of the ids 0, 1, 2 exactly once, with or without empty clusters |
| TierMapping.RankedInOrder | python.przetwarzanie_e-commerce.py:115 | in the ranking, the non-empty clusters come in ascending mean order; tied means keep the lower id first |
| TierMapping.SortedPair | python.przetwarzanie_e-commerce.py:115 | the stable sort of clusters 0 and 1 puts 1 first only when its mean is strictly lower |
| TierMapping.RankedUnfolded | python.przetwarzanie_e-commerce.py:115 | the stable ranking of 0, 1, 2 is the insertion of 2 into 0, 1 ordered by cluster 1 against cluster 0 |
| TierMapping.InsertIntoPair | python.przetwarzanie_e-commerce.py:115 | stable insertion of cluster 2 into a pair puts it before the first entry whose mean is strictly larger |
| TierMapping.ScriptRanked | python.przetwarzanie_e-commerce.py:115 | CPython's run detection and binary insertion on the items 0, 1, 2; the result lists each id exactly once |
| TierMapping.ScriptRankedDiverges | python.przetwarzanie_e-commerce.py:112-115 | CPython's ranking differs from the stable ranking if and only if cluster 1 is empty and cluster 2's mean is below cluster 0's |
| TierMapping.EmptyClusterInvertsTiers | python.przetwarzanie_e-commerce.py:112-122 | ratings [1,1,5] with ids [2,2,0]: the script labels the mean-1 cluster `Hit` and the mean-5 cluster `Longtail` |
| TierMapping.TierMap | python.przetwarzanie_e-commerce.py:118-122 | the dict literal's keys are the three ranked ids; as the last entry of the literal wins, the lowest-ranked id is always `Longtail`, the middle id `Dobry` unless it equals the lowest, and the highest `Hit` unless it equals one of the others |
| TierMapping.TierMapBijective | python.przetwarzanie_e-commerce.py:118-122 | the id-to-label dict is a bijection from {0,1,2} onto {Longtail, Dobry, Hit}; the id at rank p gets the tier of level p |
| TierMapping.TierFollowsMean | python.przetwarzanie_e-commerce.py:115-122 | of two non-empty clusters, a gets a lower tier than b if and only if a precedes b in the stable order by mean, whether or not the third cluster is empty |
| TierMapping.TierFollowsOrder | python.przetwarzanie_e-commerce.py:115-122 | for any ordering of the three ids that keeps the non-empty clusters in stable mean order, the dict gives the earlier of two non-empty clusters the lower tier, in both directions |
| TierMapping.LowestIsLongtail | python.przetwarzanie_e-commerce.py:115-121 | the cluster that comes before both others in the stable order by mean (a lower mean, or a tie and a lower id) is `Longtail` |
| TierMapping.LowestOf | python.przetwarzanie_e-commerce.py:115-121 | for any ordering of the three non-empty clusters in stable mean order, the cluster that precedes both others is `Longtail` |
| TierMapping.HighestIsHit | python.przetwarzanie_e-commerce.py:115-119 | the cluster that comes after both others in the stable order by mean is `Hit` |
| TierMapping.HighestOf | python.przetwarzanie_e-commerce.py:115-119 | for any ordering of the three non-empty clusters in stable mean order, the cluster that follows both others is `Hit` |
| TierMapping.RankOf | python.przetwarzanie_e-commerce.py:118-122 | in any ordering of the three ids, the id at position p gets the tier of level p, and the two other ids get distinct tiers |
| TierMapping.ClusterTiers | python.przetwarzanie_e-commerce.py:124-127 | a clustered category yields one label per row, each of them Hit, Dobry or Longtail |
| TierMapping.SameTierIffSameCluster | python.przetwarzanie_e-commerce.py:118-127 | two rows share a tier if and only if they share a cluster id; every row gets one of the three tiers |
| TierMapping.EveryTierUsed | python.przetwarzanie_e-commerce.py:118-127 | when all three ids are used, each of Hit, Dobry and Longtail is given to some row |
| TierMapping.TiersFollowMeans | python.przetwarzanie_e-commerce.py:110-127 | rows in different clusters are tiered in the stable order of their clusters' mean unscaled ratings, in both directions |
| TierMapping.TiersMonotoneInRating | python.przetwarzanie_e-commerce.py:96-127 | when clusters are rating intervals (as in 1-D k-means), a higher rating never gets a lower tier, and gets a strictly higher tier in another cluster |
| TierMapping.ReportedCounts | python.przetwarzanie_e-commerce.py:130-132 | the three printed counts add up to the category's size |
| TierMapping.ReportedCountsMatchLabels | python.przetwarzanie_e-commerce.py:130-133 | the printed Hit, Dobry and Longtail counts equal the numbers of rows given those labels |
| TierMapping.CountOfMapped | python.przetwarzanie_e-commerce.py:125-132 | when every row is labelled through an injective dict, the rows with cluster c's label are exactly cluster c's rows |
| Labelling.RowsOf | python.przetwarzanie_e-commerce.py:87 | the rows selected by `df_grouped[NAZWA] == category` are exactly that category's rows, in ascending position |
| Labelling.CategoryRatings | python.przetwarzanie_e-commerce.py:96 | `X` holds one unscaled RATING per selected row, in row order |
| Labelling.CategoryIds | python.przetwarzanie_e-commerce.py:103-107 | `kmeans.labels_` for the category: with 3 or more rows, one id per selected row, each below 3 |
| Labelling.CategoryTiers | python.przetwarzanie_e-commerce.py:90-127 | a category's labels: one per row of the category, each Hit, Dobry or Longtail |
| Labelling.WriteBack | python.przetwarzanie_e-commerce.py:125-127 | the write-back loop writes each listed row's cluster label and leaves every other row unchanged |
| Labelling.ClusterTierMap | python.przetwarzanie_e-commerce.py:110-122 | the `range(3)` loop, the sort and the dict literal together yield the dict of the category's ranked cluster means, with keys 0, 1, 2 |
| Labelling.ClusteredTier | python.przetwarzanie_e-commerce.py:118-127 | in a clustered category, row k's tier is what the dict assigns to row k's cluster id |
| Labelling.ClusterCategory | python.przetwarzanie_e-commerce.py:96-127 | the clustered branch gives the category's rows its tiers; rows of other categories keep their labels |
| Labelling.LabelCategory | python.przetwarzanie_e-commerce.py:87-127 | one category pass gives its rows the category's tiers; rows of other categories keep their labels |
| Labelling.Categories | python.przetwarzanie_e-commerce.py:76 | `unique()` lists each category of the table, null included, exactly once |
| Labelling.LabelledPreserved | python.przetwarzanie_e-commerce.py:87-91 | relabelling one category does not disturb another category's labels |
| Labelling.SkipNull | python.przetwarzanie_e-commerce.py:80-82 | the loop invariants (null and unvisited rows are `''`, visited categories carry their tiers) survive the `continue` on a null category |
| Labelling.VisitKeepsBlank | python.przetwarzanie_e-commerce.py:73-127 | a category pass keeps `''` on each row whose category has not been visited, and on null-category rows |
| Labelling.VisitKeepsLabelled | python.przetwarzanie_e-commerce.py:80-127 | after one more category pass, every category visited so far still carries its tiers |
| Labelling.ClassifyAll | python.przetwarzanie_e-commerce.py:73-127 | starting from all `''`, the category loop leaves a row `''` if and only if its category is null; each category's rows carry its tiers |
| Labelling.FinishClassification | python.przetwarzanie_e-commerce.py:80-127 | once every category has been visited, the labelling is total on non-null categories and matches each category's tiers |
| Labelling.RowLabelled | python.przetwarzanie_e-commerce.py:90-127 | a row of a labelled category carries one of Hit, Dobry or Longtail |
| Labelling.SmallCategoryIsLongtail | python.przetwarzanie_e-commerce.py:90-93 | a category with fewer than 3 rows is all `Longtail`, whatever the clustering returns |
| Labelling.ClassifyProducts | python.przetwarzanie_e-commerce.py:61-127 | aggregation followed by classification labels every aggregated row with one of the three tiers |

## Findings

| source | as written | input that shows it | evidently intended | confidence | as-written member | corrected member |
|---|---|---|---|---|---|---|
| python.przetwarzanie_e-commerce.py:112-122 | An empty cluster's mean is NaN. `sorted` compares with `<` only, so a NaN key can leave the other two clusters out of mean order. | Ratings [1, 1, 5] with cluster ids [2, 2, 0]. Cluster 1 is empty, and the means are 5, NaN, 1. `sorted` keeps 0, 1, 2, so the mean-1 cluster is `Hit` and the mean-5 cluster `Longtail`. | The non-empty clusters are ranked by ascending mean, so the mean-1 cluster is `Longtail` and the mean-5 cluster ranks above it. | medium; not executed | TierMapping.EmptyClusterInvertsTiers | TierMapping.TierFollowsMean |

`ScriptRanked` is the ranking as CPython computes it. `ScriptRankedDiverges` proves that it agrees with the stable ranking `Ranked` except in the case above. The rest of the model uses `Ranked`, the corrected ranking.

## Left out

- Excel input and output (lines 6-19, 146) and the hard-coded paths are I/O. So is every `print`: lines 11, 16, 18, 22, 45, 47, 58, 68, 77, 84, 92, 133, 136, 147, 149 and 152. `ReportedCounts` models the numbers that line 133 prints.
- The missing-column warnings (lines 40-47) only print. The `temp_cluster` drop (lines 142-143) does not affect `df_grouped`.
- Non-string column labels: `read_excel` gives a number or date label for a numeric or date header cell. Then `col.startswith` on line 28 raises `AttributeError` outside any try, and the script ends. `NormalizeColumns` takes `seq<string>`, so it assumes every label is a string and does not model this failure.
- Missing columns: if one of the four columns is still missing after the rename, `df[[...]]` on line 51 raises `KeyError` outside any try, and the script ends. `Record` assumes that all four columns exist, so this failure is not modelled.
- `MinMaxScaler` and `KMeans` (lines 99-107) are foreign floating-point code. They are the `kmeans` parameter.
- Float means: the means on line 112 are floats. Two clusters whose exact means differ by less than float rounding tie in the script, and the tie is broken by id. The model compares exact rationals, so it orders them strictly.
- The script's labels follow `ScriptRanked` only through the finding above. `ClusterTiers`, `CategoryTiers` and the methods use the corrected `Ranked`, so in the one diverging case they do not reproduce the script's labels.
- `ScriptRanked` follows the run detection and binary insertion of CPython's list sort up to version 3.12. Later versions detect runs differently, and with a NaN key they may order the items differently.
- TierMapping.LowestIsLongtail: requires all three clusters to be non-empty. With an empty cluster, the empty one may take the `Longtail` slot.
- TierMapping.HighestIsHit: requires all three clusters to be non-empty, for the same reason.
- TierMapping.TiersMonotoneInRating: assumes the clusters are rating intervals. 1-D k-means produces such clusters, but the `kmeans` parameter does not promise it.
- The `kmeans` parameter: the clustering's output is characterised only by its length and id range. Which rows share a cluster is left to the parameter.
- Null handling of pandas is not modelled. Records have no nulls except the category. `first` skipping nulls and `sum` skipping NaN are not modelled.
- Null keys: pandas drops rows with a null category in groupby, and `Aggregate` drops them too. The model follows the code here, so such rows do not pass through as singleton groups.
- Output order: pandas sorts groupby output by key. The model sorts by character-code lexicographic order on the strings (code first, then category). A numeric `TOW_KOD` column would sort numerically in pandas, which the model does not capture.
- The try/except around classification and saving (lines 135-137, 148-150) aborts on foreign exceptions. They cannot arise in the model, since dict lookups are proved to succeed.
- Duplicate column names after renaming are not modelled. The model renames positionally.
