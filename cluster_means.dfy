/**
  The mean unscaled RATING of each of a category's three clusters. Means are
  kept as a sum and a count and compared by cross-multiplication, so no
  division or rounding is involved.
 */
module ClusterMeans {

  /** A mean as sum and count; a count of 0 is the NaN mean of an empty cluster. */
  datatype Mean = Mean(sum: int, count: nat)

  /** `a < b` on means; like Python's `<`, false as soon as either mean is NaN. */
  predicate MeanLess(a: Mean, b: Mean)
    ensures a.count == 0 || b.count == 0 ==> !MeanLess(a, b)
  {
    a.count > 0 && b.count > 0 && a.sum * b.count < b.sum * a.count
  }

  /** On non-empty clusters, MeanLess is `<` on the quotients sum / count. */
  lemma MeanLessIsQuotientLess(a: Mean, b: Mean)
    requires a.count > 0 && b.count > 0
    ensures MeanLess(a, b) <==> (a.sum as real) / (a.count as real) < (b.sum as real) / (b.count as real)
  {
    var x, y := (a.sum as real) / (a.count as real), (b.sum as real) / (b.count as real);
    assert a.sum as real == x * a.count as real;
    assert b.sum as real == y * b.count as real;
    assert (a.sum * b.count) as real == x * (a.count as real) * (b.count as real);
    assert (b.sum * a.count) as real == y * (a.count as real) * (b.count as real);
  }

  lemma MulLeft(x: int, y: int, z: int)
    requires z > 0
    ensures x < y ==> z * x < z * y
    ensures x <= y ==> z * x <= z * y
  {
  }

  /** Cross-multiplied comparisons chain like comparisons of the quotients. */
  lemma CrossTransitive(s1: int, n1: int, s2: int, n2: int, s3: int, n3: int)
    requires n1 > 0 && n2 > 0 && n3 > 0
    ensures s1 * n2 < s2 * n1 && s2 * n3 < s3 * n2 ==> s1 * n3 < s3 * n1
    ensures s1 * n2 <= s2 * n1 && s2 * n3 <= s3 * n2 ==> s1 * n3 <= s3 * n1
  {
    MulLeft(s1 * n2, s2 * n1, n3);
    MulLeft(s2 * n3, s3 * n2, n1);
    assert n3 * (s2 * n1) == n1 * (s2 * n3);
    assert n3 * (s1 * n2) == n2 * (s1 * n3);
    assert n1 * (s3 * n2) == n2 * (s3 * n1);
    MulLeft(s3 * n1, s1 * n3, n2);
  }

  /** On non-empty clusters MeanLess is a strict weak order. */
  lemma MeanLessOrder(a: Mean, b: Mean, c: Mean)
    requires a.count > 0 && b.count > 0 && c.count > 0
    ensures !MeanLess(a, a)
    ensures MeanLess(a, b) ==> !MeanLess(b, a)
    ensures MeanLess(a, b) && MeanLess(b, c) ==> MeanLess(a, c)
    ensures !MeanLess(a, b) && !MeanLess(b, c) ==> !MeanLess(a, c)
  {
    CrossTransitive(a.sum, a.count, b.sum, b.count, c.sum, c.count);
    CrossTransitive(c.sum, c.count, b.sum, b.count, a.sum, a.count);
  }

  /** The sum of the ratings of the rows in cluster `c`. */
  function ClusterSum(ratings: seq<int>, ids: seq<nat>, c: nat): int
    requires |ratings| == |ids|
  {
    if ids == [] then 0
    else (if ids[0] == c then ratings[0] else 0) + ClusterSum(ratings[1..], ids[1..], c)
  }

  /** The number of rows in cluster `c`. */
  function ClusterSize(ids: seq<nat>, c: nat): nat
  {
    if ids == [] then 0 else (if ids[0] == c then 1 else 0) + ClusterSize(ids[1..], c)
  }

  /** `category_df[category_df['temp_cluster'] == c][RATING].mean()`. */
  function MeanOf(ratings: seq<int>, ids: seq<nat>, c: nat): (m: Mean)
    requires |ratings| == |ids|
    ensures m.count > 0 <==> exists p :: 0 <= p < |ids| && ids[p] == c
  {
    ClusterSizePositive(ids, c);
    Mean(ClusterSum(ratings, ids, c), ClusterSize(ids, c))
  }

  /** The `cluster_means` dict: the mean of each of the clusters 0, 1 and 2. */
  function MeansOf(ratings: seq<int>, ids: seq<nat>): (means: map<nat, Mean>)
    requires |ratings| == |ids|
    ensures means.Keys == {0, 1, 2}
    ensures forall c :: c in means ==>
      means[c].sum == ClusterSum(ratings, ids, c) && means[c].count == ClusterSize(ids, c)
  {
    map c: nat | c < 3 :: MeanOf(ratings, ids, c)
  }

  /** The loop over `range(3)` that fills `cluster_means`. */
  /** Any dict with keys 0-2 holding each cluster's sum and count is MeansOf. */
  lemma MeansOfUnique(ratings: seq<int>, ids: seq<nat>, means: map<nat, Mean>)
    requires |ratings| == |ids| && means.Keys == {0, 1, 2}
    requires forall c :: c in means ==>
      means[c].sum == ClusterSum(ratings, ids, c) && means[c].count == ClusterSize(ids, c)
    ensures means == MeansOf(ratings, ids)
  {
  }

  method ComputeClusterMeans(ratings: seq<int>, ids: seq<nat>) returns (means: map<nat, Mean>)
    requires |ratings| == |ids|
    ensures means.Keys == {0, 1, 2}
    ensures forall c :: c in means ==>
      means[c].sum == ClusterSum(ratings, ids, c) && means[c].count == ClusterSize(ids, c)
  {
    means := map[];
    for c := 0 to 3
      invariant forall d: nat :: d in means <==> d < c
      invariant forall d :: d in means ==> means[d] == MeanOf(ratings, ids, d)
    {
      means := means[c := MeanOf(ratings, ids, c)];
    }
  }

  /** A cluster is non-empty exactly when some row carries its id. */
  lemma {:induction false} ClusterSizePositive(ids: seq<nat>, c: nat)
    ensures ClusterSize(ids, c) > 0 <==> exists p :: 0 <= p < |ids| && ids[p] == c
  {
    if ids != [] {
      ClusterSizePositive(ids[1..], c);
      if ids[0] != c && ClusterSize(ids, c) == 0 {
        forall p | 0 <= p < |ids| ensures ids[p] != c {
          if p > 0 { assert ids[p] == ids[1..][p - 1]; }
        }
      }
      if ClusterSize(ids[1..], c) > 0 {
        var p :| 0 <= p < |ids[1..]| && ids[1..][p] == c;
        assert ids[p + 1] == c;
      }
    }
  }

  /** When every id is below 3 the three cluster sizes add up to the number of rows. */
  lemma {:induction false} ClusterSizesAddUp(ids: seq<nat>)
    requires forall p :: 0 <= p < |ids| ==> ids[p] < 3
    ensures ClusterSize(ids, 0) + ClusterSize(ids, 1) + ClusterSize(ids, 2) == |ids|
  {
    if ids != [] {
      assert forall p :: 0 <= p < |ids[1..]| ==> ids[1..][p] == ids[p + 1];
      ClusterSizesAddUp(ids[1..]);
    }
  }

  /** An upper bound on the ratings of a cluster bounds its sum. */
  lemma {:induction false} ClusterSumAtMost(ratings: seq<int>, ids: seq<nat>, c: nat, hi: int)
    requires |ratings| == |ids|
    requires forall p :: 0 <= p < |ids| && ids[p] == c ==> ratings[p] <= hi
    ensures ClusterSum(ratings, ids, c) <= ClusterSize(ids, c) * hi
  {
    if ids != [] {
      forall p | 0 <= p < |ids[1..]| && ids[1..][p] == c ensures ratings[1..][p] <= hi {
        assert ids[1..][p] == ids[p + 1] && ratings[1..][p] == ratings[p + 1];
      }
      ClusterSumAtMost(ratings[1..], ids[1..], c, hi);
      var n := ClusterSize(ids[1..], c);
      assert (n + 1) * hi == n * hi + hi;
    }
  }

  /** A lower bound on the ratings of a cluster bounds its sum. */
  lemma {:induction false} ClusterSumAtLeast(ratings: seq<int>, ids: seq<nat>, c: nat, lo: int)
    requires |ratings| == |ids|
    requires forall p :: 0 <= p < |ids| && ids[p] == c ==> lo <= ratings[p]
    ensures ClusterSize(ids, c) * lo <= ClusterSum(ratings, ids, c)
  {
    if ids != [] {
      forall p | 0 <= p < |ids[1..]| && ids[1..][p] == c ensures lo <= ratings[1..][p] {
        assert ids[1..][p] == ids[p + 1] && ratings[1..][p] == ratings[p + 1];
      }
      ClusterSumAtLeast(ratings[1..], ids[1..], c, lo);
      var n := ClusterSize(ids[1..], c);
      assert (n + 1) * lo == n * lo + lo;
    }
  }

  /** The smallest rating in a non-empty cluster. */
  lemma {:induction false} ClusterMinimum(ratings: seq<int>, ids: seq<nat>, c: nat) returns (t: int)
    requires |ratings| == |ids| && ClusterSize(ids, c) > 0
    ensures exists p :: 0 <= p < |ids| && ids[p] == c && ratings[p] == t
    ensures forall p :: 0 <= p < |ids| && ids[p] == c ==> t <= ratings[p]
  {
    if ClusterSize(ids[1..], c) == 0 {
      ClusterSizePositive(ids[1..], c);
      t := ratings[0];
      forall p | 1 <= p < |ids| ensures ids[p] != c {
        assert ids[p] == ids[1..][p - 1];
      }
    } else {
      var u := ClusterMinimum(ratings[1..], ids[1..], c);
      var q :| 0 <= q < |ids[1..]| && ids[1..][q] == c && ratings[1..][q] == u;
      assert ids[q + 1] == c && ratings[q + 1] == u;
      t := if ids[0] == c && ratings[0] < u then ratings[0] else u;
      forall p | 1 <= p < |ids| && ids[p] == c ensures u <= ratings[p] {
        assert ids[p] == ids[1..][p - 1] && ratings[p] == ratings[1..][p - 1];
      }
    }
  }

  /** Every rating in cluster `a` is below every rating in cluster `b`. */
  ghost predicate Below(ratings: seq<int>, ids: seq<nat>, a: nat, b: nat)
    requires |ratings| == |ids|
  {
    forall p, q :: 0 <= p < |ids| && 0 <= q < |ids| && ids[p] == a && ids[q] == b ==> ratings[p] < ratings[q]
  }

  lemma CrossFromBounds(sa: int, na: int, sb: int, nb: int, t: int)
    requires na > 0 && nb > 0
    requires sa <= na * (t - 1) && nb * t <= sb
    ensures sa * nb < sb * na
  {
    MulLeft(sa, na * (t - 1), nb);
    MulLeft(nb * t, sb, na);
    assert nb * (na * (t - 1)) == na * (nb * t) - na * nb;
    assert na * nb > 0;
    assert nb * sa == sa * nb && na * sb == sb * na;
  }

  /** Two non-empty clusters lying one below the other have strictly ordered means. */
  lemma SeparatedMeans(ratings: seq<int>, ids: seq<nat>, a: nat, b: nat)
    requires |ratings| == |ids| && Below(ratings, ids, a, b)
    requires ClusterSize(ids, a) > 0 && ClusterSize(ids, b) > 0
    ensures MeanLess(MeanOf(ratings, ids, a), MeanOf(ratings, ids, b))
  {
    var t := ClusterMinimum(ratings, ids, b);
    var q :| 0 <= q < |ids| && ids[q] == b && ratings[q] == t;
    forall p | 0 <= p < |ids| && ids[p] == a ensures ratings[p] <= t - 1 {
      assert ratings[p] < ratings[q];
    }
    ClusterSumAtMost(ratings, ids, a, t - 1);
    ClusterSumAtLeast(ratings, ids, b, t);
    CrossFromBounds(ClusterSum(ratings, ids, a), ClusterSize(ids, a),
                    ClusterSum(ratings, ids, b), ClusterSize(ids, b), t);
  }
}
