/**
  The per-category labelling of the aggregated table: every row's 'cluster'
  column starts as '', categories are visited in first-seen order, a category
  of fewer than 3 rows is labelled 'Longtail' outright, and a larger one is
  clustered into three groups whose ids are turned into tiers by rank of mean
  RATING, each row's label then being written back by position.
 */
module Labelling {

  import opened Wrappers
  import opened Records
  import opened ClusterMeans
  import opened TierMapping
  import opened Aggregation

  /**
    KMeans(n_clusters=3, random_state=42, n_init=10) fitted on the min-max
    scaled ratings of one category, seen as a function of the unscaled ratings:
    its `labels_`, one cluster id per row. Scaling and clustering are
    deterministic, so equal rating sequences give equal id sequences.
   */
  type Clustering = seq<int> -> seq<nat>

  /** KMeans with 3 clusters on at least 3 rows returns one id per row, each below 3. */
  ghost predicate WellFormed(kmeans: Clustering)
  {
    forall xs: seq<int> :: |xs| >= 3 ==>
      |kmeans(xs)| == |xs| && forall k :: 0 <= k < |xs| ==> kmeans(xs)[k] < 3
  }

  /** The positions of the rows of category `cat`, ascending (the mask `df_grouped[NAZWA] == category`). */
  function RowsOf(table: seq<Record>, cat: string): (rows: seq<nat>)
    ensures forall k :: 0 <= k < |rows| ==> rows[k] < |table| && table[rows[k]].category == Some(cat)
    ensures forall k, l :: 0 <= k < l < |rows| ==> rows[k] < rows[l]
    ensures forall i :: 0 <= i < |table| && table[i].category == Some(cat) ==> i in rows
  {
    if table == [] then []
    else
      var n := |table| - 1;
      var init := RowsOf(table[..n], cat);
      assert forall i :: 0 <= i < n ==> table[..n][i] == table[i];
      if table[n].category == Some(cat) then init + [n] else init
  }

  /** The category's RATING column, unscaled, in row order. */
  function CategoryRatings(table: seq<Record>, cat: string): (xs: seq<int>)
    ensures |xs| == |RowsOf(table, cat)|
    ensures forall k :: 0 <= k < |xs| ==> xs[k] == table[RowsOf(table, cat)[k]].rating
  {
    var rows := RowsOf(table, cat);
    seq(|rows|, k requires 0 <= k < |rows| => table[rows[k]].rating)
  }

  /** The cluster ids KMeans gives the category's rows. */
  function CategoryIds(table: seq<Record>, cat: string, kmeans: Clustering): (ids: seq<nat>)
    ensures WellFormed(kmeans) && |RowsOf(table, cat)| >= 3 ==>
      |ids| == |RowsOf(table, cat)| && forall k :: 0 <= k < |ids| ==> ids[k] < 3
  {
    kmeans(CategoryRatings(table, cat))
  }

  /** The labels the per-category step writes for the rows of `cat`, in the order of RowsOf. */
  function CategoryTiers(table: seq<Record>, cat: string, kmeans: Clustering): (tiers: seq<Label>)
    requires WellFormed(kmeans)
    ensures |tiers| == |RowsOf(table, cat)|
    ensures forall k :: 0 <= k < |tiers| ==> tiers[k] in {Longtail, Dobry, Hit}
  {
    var n := |RowsOf(table, cat)|;
    if n < 3 then seq(n, k => Longtail)
    else ClusterTiers(CategoryRatings(table, cat), CategoryIds(table, cat, kmeans))
  }

  /**
    Lines 110-122 for one category: the mean of each cluster, the clusters
    sorted by mean, and the id-to-label dict built from that order.
   */
  method ClusterTierMap(ratings: seq<int>, ids: seq<nat>) returns (tierMap: map<nat, Label>)
    requires |ratings| == |ids|
    ensures tierMap == TierMap(Ranked(MeansOf(ratings, ids)))
    ensures tierMap.Keys == {0, 1, 2}
  {
    var means := ComputeClusterMeans(ratings, ids);
    MeansOfUnique(ratings, ids, means);
    var ranked := Ranked(means);
    TierMapBijective(ranked);
    tierMap := TierMap(ranked);
  }

  /** A row of a clustered category gets the label its cluster id has in the dict of its ranked cluster means. */
  lemma ClusteredTier(table: seq<Record>, cat: string, kmeans: Clustering, ids: seq<nat>, tm: map<nat, Label>, k: nat)
    requires WellFormed(kmeans) && |RowsOf(table, cat)| >= 3 && ids == CategoryIds(table, cat, kmeans)
    requires tm == TierMap(Ranked(MeansOf(CategoryRatings(table, cat), ids)))
    requires k < |RowsOf(table, cat)|
    ensures k < |ids| && ids[k] in tm && CategoryTiers(table, cat, kmeans)[k] == tm[ids[k]]
  {
    TierMapBijective(Ranked(MeansOf(CategoryRatings(table, cat), ids)));
  }

  /**
    The write-back loop `for idx, row in category_df.iterrows()`: the row at
    position rows[k] gets the label of its cluster id ids[k]; no other row changes.
   */
  method WriteBack(cluster: array<Label>, rows: seq<nat>, ids: seq<nat>, tierMap: map<nat, Label>)
    requires |ids| == |rows|
    requires forall k :: 0 <= k < |rows| ==> rows[k] < cluster.Length && ids[k] in tierMap
    requires forall k, l :: 0 <= k < l < |rows| ==> rows[k] < rows[l]
    modifies cluster
    ensures forall k :: 0 <= k < |rows| ==> cluster[rows[k]] == tierMap[ids[k]]
    ensures forall i :: 0 <= i < cluster.Length && i !in rows ==> cluster[i] == old(cluster[i])
  {
    for k := 0 to |rows|
      invariant forall j :: 0 <= j < k ==> cluster[rows[j]] == tierMap[ids[j]]
      invariant forall i :: 0 <= i < cluster.Length && i !in rows[..k] ==> cluster[i] == old(cluster[i])
    {
      assert rows[..k + 1] == rows[..k] + [rows[k]];
      cluster[rows[k]] := tierMap[ids[k]];
    }
    assert rows[..|rows|] == rows;
  }

  /**
    One pass of the category loop: either every row of `cat` becomes
    'Longtail', or the means of the clusters are computed, ranked, turned into
    the id-to-label dict and each row of `cat` gets the label of its cluster.
   */
  method LabelCategory(table: seq<Record>, cluster: array<Label>, cat: string, kmeans: Clustering)
    requires cluster.Length == |table| && WellFormed(kmeans)
    modifies cluster
    ensures forall k :: 0 <= k < |RowsOf(table, cat)| ==>
      cluster[RowsOf(table, cat)[k]] == CategoryTiers(table, cat, kmeans)[k]
    ensures forall i :: 0 <= i < |table| && table[i].category != Some(cat) ==> cluster[i] == old(cluster[i])
  {
    var rows := RowsOf(table, cat);
    if |rows| < 3 {
      ghost var tiers := CategoryTiers(table, cat, kmeans);
      assert forall k :: 0 <= k < |rows| ==> tiers[k] == Longtail;
      forall i | 0 <= i < cluster.Length && table[i].category == Some(cat) {
        cluster[i] := Longtail;
      }
      return;
    }
    ClusterCategory(table, cluster, cat, kmeans);
  }

  /**
    The clustered branch of one category pass: the means of the clusters are
    computed, ranked and turned into the id-to-label dict, and each row of
    `cat` gets the label of its cluster.
   */
  method ClusterCategory(table: seq<Record>, cluster: array<Label>, cat: string, kmeans: Clustering)
    requires cluster.Length == |table| && WellFormed(kmeans) && |RowsOf(table, cat)| >= 3
    modifies cluster
    ensures forall k :: 0 <= k < |RowsOf(table, cat)| ==>
      cluster[RowsOf(table, cat)[k]] == CategoryTiers(table, cat, kmeans)[k]
    ensures forall i :: 0 <= i < |table| && table[i].category != Some(cat) ==> cluster[i] == old(cluster[i])
  {
    var rows := RowsOf(table, cat);
    var ratings := CategoryRatings(table, cat);
    var ids := CategoryIds(table, cat, kmeans);
    var tierMap := ClusterTierMap(ratings, ids);
    WriteBack(cluster, rows, ids, tierMap);
    forall k | 0 <= k < |rows| ensures cluster[rows[k]] == CategoryTiers(table, cat, kmeans)[k] {
      ClusteredTier(table, cat, kmeans, ids, tierMap, k);
    }
  }

  /** The distinct categories in order of first appearance (`df_grouped[NAZWA].unique()`), null included. */
  function Categories(table: seq<Record>): (cats: seq<Option<string>>)
    ensures forall i, j :: 0 <= i < j < |cats| ==> cats[i] != cats[j]
    ensures forall c :: c in cats <==> exists i :: 0 <= i < |table| && table[i].category == c
  {
    if table == [] then []
    else
      var n := |table| - 1;
      var init := Categories(table[..n]);
      assert forall i :: 0 <= i < n ==> table[..n][i] == table[i];
      if table[n].category in init then init else init + [table[n].category]
  }

  /** The rows of `cat` carry the category's tiers. */
  ghost predicate Labelled(table: seq<Record>, labels: seq<Label>, cat: string, kmeans: Clustering)
    requires WellFormed(kmeans)
  {
    |labels| == |table| &&
    forall k :: 0 <= k < |RowsOf(table, cat)| ==> labels[RowsOf(table, cat)[k]] == CategoryTiers(table, cat, kmeans)[k]
  }

  /** Relabelling the rows of one category leaves another category's labels as they were. */
  lemma LabelledPreserved(table: seq<Record>, before: seq<Label>, after: seq<Label>, cat: string, other: string, kmeans: Clustering)
    requires WellFormed(kmeans) && cat != other && |after| == |table|
    requires Labelled(table, before, cat, kmeans)
    requires forall i :: 0 <= i < |table| && table[i].category != Some(other) ==> after[i] == before[i]
    ensures Labelled(table, after, cat, kmeans)
  {
  }

  /**
    The classification step of the script: a fresh 'cluster' column of ''
    labels, then one LabelCategory pass per non-null category. Afterwards a
    row is unlabelled exactly when its category is null, and the rows of each
    category carry that category's tiers.
   */
  method ClassifyAll(table: seq<Record>, kmeans: Clustering) returns (cluster: array<Label>)
    requires WellFormed(kmeans)
    ensures fresh(cluster) && cluster.Length == |table|
    ensures forall i :: 0 <= i < |table| ==> (cluster[i] == Blank <==> table[i].category.None?)
    ensures forall cat, k :: 0 <= k < |RowsOf(table, cat)| ==>
      cluster[RowsOf(table, cat)[k]] == CategoryTiers(table, cat, kmeans)[k]
  {
    cluster := new Label[|table|](_ => Blank);
    var cats := Categories(table);
    for c := 0 to |cats|
      invariant BlankOutside(table, cluster[..], cats[..c])
      invariant AllLabelled(table, cluster[..], cats[..c], kmeans)
    {
      assert cats[..c + 1] == cats[..c] + [cats[c]];
      if cats[c].None? {
        SkipNull(table, cluster[..], cats[..c], kmeans);
        continue;
      }
      var current := cats[c].value;
      ghost var before := cluster[..];
      LabelCategory(table, cluster, current, kmeans);
      VisitKeepsBlank(table, before, cluster[..], cats[..c], current);
      VisitKeepsLabelled(table, before, cluster[..], cats[..c], current, kmeans);
    }
    assert cats[..|cats|] == cats;
    FinishClassification(table, cluster[..], kmeans);
  }

  /** Rows whose category is null or not yet visited still carry ''. */
  ghost predicate BlankOutside(table: seq<Record>, labels: seq<Label>, seen: seq<Option<string>>)
  {
    |labels| == |table| &&
    forall i :: 0 <= i < |table| && (table[i].category.None? || table[i].category !in seen) ==> labels[i] == Blank
  }

  /** Every visited non-null category carries its tiers. */
  ghost predicate AllLabelled(table: seq<Record>, labels: seq<Label>, seen: seq<Option<string>>, kmeans: Clustering)
    requires WellFormed(kmeans)
  {
    forall cat :: Some(cat) in seen ==> Labelled(table, labels, cat, kmeans)
  }

  /** Skipping the null category (`continue` after `pd.isna`) keeps both loop invariants. */
  lemma SkipNull(table: seq<Record>, labels: seq<Label>, seen: seq<Option<string>>, kmeans: Clustering)
    requires WellFormed(kmeans)
    requires BlankOutside(table, labels, seen) && AllLabelled(table, labels, seen, kmeans)
    ensures BlankOutside(table, labels, seen + [None]) && AllLabelled(table, labels, seen + [None], kmeans)
  {
  }

  /** Labelling one more category keeps the rows outside the visited categories at ''. */
  lemma VisitKeepsBlank(table: seq<Record>, before: seq<Label>, after: seq<Label>, seen: seq<Option<string>>,
                        current: string)
    requires |after| == |table| && BlankOutside(table, before, seen)
    requires forall i :: 0 <= i < |table| && table[i].category != Some(current) ==> after[i] == before[i]
    ensures BlankOutside(table, after, seen + [Some(current)])
  {
    forall i | 0 <= i < |table| && (table[i].category.None? || table[i].category !in seen + [Some(current)])
      ensures after[i] == Blank
    {
      assert table[i].category != Some(current);
    }
  }

  /** Labelling one more category keeps the earlier categories labelled and adds this one. */
  lemma VisitKeepsLabelled(table: seq<Record>, before: seq<Label>, after: seq<Label>, seen: seq<Option<string>>,
                           current: string, kmeans: Clustering)
    requires WellFormed(kmeans) && |before| == |after| == |table| && AllLabelled(table, before, seen, kmeans)
    requires forall k :: 0 <= k < |RowsOf(table, current)| ==>
      after[RowsOf(table, current)[k]] == CategoryTiers(table, current, kmeans)[k]
    requires forall i :: 0 <= i < |table| && table[i].category != Some(current) ==> after[i] == before[i]
    ensures AllLabelled(table, after, seen + [Some(current)], kmeans)
  {
    forall cat | Some(cat) in seen + [Some(current)]
      ensures Labelled(table, after, cat, kmeans)
    {
      if cat != current {
        assert Some(cat) in seen;
        LabelledPreserved(table, before, after, cat, current, kmeans);
      }
    }
  }

  /** Once every category has been visited, the labels have the shape ClassifyAll promises. */
  lemma FinishClassification(table: seq<Record>, labels: seq<Label>, kmeans: Clustering)
    requires WellFormed(kmeans) && |labels| == |table|
    requires forall i :: 0 <= i < |table| && table[i].category.None? ==> labels[i] == Blank
    requires forall cat :: Some(cat) in Categories(table) ==> Labelled(table, labels, cat, kmeans)
    ensures forall i :: 0 <= i < |table| ==> (labels[i] == Blank <==> table[i].category.None?)
    ensures forall cat, k :: 0 <= k < |RowsOf(table, cat)| ==>
      labels[RowsOf(table, cat)[k]] == CategoryTiers(table, cat, kmeans)[k]
  {
    forall cat, k | 0 <= k < |RowsOf(table, cat)|
      ensures labels[RowsOf(table, cat)[k]] == CategoryTiers(table, cat, kmeans)[k]
    {
      assert table[RowsOf(table, cat)[k]].category == Some(cat);
      assert Some(cat) in Categories(table);
    }
    forall i | 0 <= i < |table| && table[i].category.Some?
      ensures labels[i] != Blank
    {
      RowLabelled(table, labels, kmeans, i);
    }
  }

  /** A row with a category that has been visited carries one of the three tiers. */
  lemma RowLabelled(table: seq<Record>, labels: seq<Label>, kmeans: Clustering, i: nat)
    requires WellFormed(kmeans) && |labels| == |table|
    requires i < |table| && table[i].category.Some?
    requires Labelled(table, labels, table[i].category.value, kmeans)
    ensures labels[i] in {Longtail, Dobry, Hit}
  {
    var cat := table[i].category.value;
    var rows := RowsOf(table, cat);
    var k :| 0 <= k < |rows| && rows[k] == i;
    assert labels[rows[k]] == CategoryTiers(table, cat, kmeans)[k];
  }

  /**
    A category of fewer than 3 rows is labelled 'Longtail' throughout, and its
    labels do not depend on the clustering at all.
   */
  lemma SmallCategoryIsLongtail(table: seq<Record>, cat: string, kmeans: Clustering, other: Clustering)
    requires WellFormed(kmeans) && WellFormed(other)
    requires |RowsOf(table, cat)| < 3
    ensures forall k :: 0 <= k < |RowsOf(table, cat)| ==> CategoryTiers(table, cat, kmeans)[k] == Longtail
    ensures CategoryTiers(table, cat, kmeans) == CategoryTiers(table, cat, other)
  {
  }

  /**
    The core of the script from the selected columns onwards: aggregate, then
    classify. groupby leaves no row with a null category, so every aggregated
    row ends up with one of the three tiers.
   */
  method ClassifyProducts(rows: seq<Record>, kmeans: Clustering) returns (table: seq<Record>, cluster: array<Label>)
    requires WellFormed(kmeans)
    ensures table == Aggregate(rows)
    ensures fresh(cluster) && cluster.Length == |table|
    ensures forall i :: 0 <= i < |table| ==> cluster[i] in {Longtail, Dobry, Hit}
    ensures forall cat, k :: 0 <= k < |RowsOf(table, cat)| ==>
      cluster[RowsOf(table, cat)[k]] == CategoryTiers(table, cat, kmeans)[k]
  {
    table := Aggregate(rows);
    cluster := ClassifyAll(table, kmeans);
    forall i | 0 <= i < |table| ensures cluster[i] in {Longtail, Dobry, Hit} {
      var cat := table[i].category.value;
      var k :| 0 <= k < |RowsOf(table, cat)| && RowsOf(table, cat)[k] == i;
      assert CategoryTiers(table, cat, kmeans)[k] in {Longtail, Dobry, Hit};
    }
  }
}
