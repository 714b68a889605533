/**
  Ranking the three clusters of a category by mean RATING and naming them:
  the cluster with the lowest mean is 'Longtail', the middle one 'Dobry'
  (good), the highest 'Hit'.
 */
module TierMapping {

  import opened ClusterMeans

  /** The values of the 'cluster' column; Blank is the '' every row starts with. */
  datatype Label = Blank | Longtail | Dobry | Hit

  /** The string stored in the column for each label. */
  function Text(l: Label): (s: string)
    ensures s == "" <==> l == Blank
  {
    match l
    case Blank => ""
    case Longtail => "Longtail"
    case Dobry => "Dobry"
    case Hit => "Hit"
  }

  /** Distinct labels are stored as distinct strings, so the column determines the label. */
  lemma TextInjective(a: Label, b: Label)
    ensures Text(a) == Text(b) ==> a == b
  {
  }

  /** The position of a tier in the order Longtail < Dobry < Hit. */
  function Level(l: Label): int
  {
    match l
    case Blank => -1
    case Longtail => 0
    case Dobry => 1
    case Hit => 2
  }

  /** The ids listed here all have a mean. */
  ghost predicate Covers(means: map<nat, Mean>, ids: seq<nat>)
  {
    forall e :: e in ids ==> e in means
  }

  /** Stable insertion: `x` goes in front of the first id whose mean is strictly greater. */
  function InsertByMean(means: map<nat, Mean>, x: nat, s: seq<nat>): (r: seq<nat>)
    requires x in means && Covers(means, s)
    ensures multiset(r) == multiset(s) + multiset{x}
  {
    if s == [] then [x]
    else if MeanLess(means[x], means[s[0]]) then [x] + s
    else
      assert s == [s[0]] + s[1..];
      [s[0]] + InsertByMean(means, x, s[1..])
  }

  /**
    A stable sort of `ids` by mean. With no NaN mean it is what
    `sorted(..., key=mean)` computes; with one it is the intended ranking of the
    non-empty clusters (see ScriptRanked for what CPython does then).
   */
  function SortByMean(means: map<nat, Mean>, ids: seq<nat>): (r: seq<nat>)
    requires Covers(means, ids)
    ensures multiset(r) == multiset(ids)
  {
    if ids == [] then []
    else
      var init := ids[..|ids| - 1];
      assert ids == init + [ids[|ids| - 1]];
      var r0 := SortByMean(means, init);
      assert forall e :: e in r0 ==> e in multiset(init);
      InsertByMean(means, ids[|ids| - 1], r0)
  }

  /** The dict of the three cluster means, keyed by cluster id. */
  ghost predicate Complete(means: map<nat, Mean>)
  {
    0 in means && 1 in means && 2 in means
  }

  /** Every cluster id was given to at least one row, so no mean is NaN. */
  ghost predicate AllUsed(means: map<nat, Mean>)
  {
    Complete(means) && means[0].count > 0 && means[1].count > 0 && means[2].count > 0
  }

  /** The cluster ids ordered by ascending mean, non-empty clusters in stable order by mean. */
  function Ranked(means: map<nat, Mean>): (r: seq<nat>)
    requires Complete(means)
    ensures |r| == 3 && multiset(r) == multiset{0, 1, 2}
  {
    SortByMean(means, [0, 1, 2])
  }

  /** Id `i` goes before id `j` in a stable sort by mean: a lower mean, or a tie and a lower id. */
  ghost predicate Precedes(means: map<nat, Mean>, i: nat, j: nat)
    requires i in means && j in means
  {
    MeanLess(means[i], means[j]) || (!MeanLess(means[j], means[i]) && i < j)
  }

  lemma PrecedesOrder(means: map<nat, Mean>, i: nat, j: nat, k: nat)
    requires i in means && j in means && k in means
    requires means[i].count > 0 && means[j].count > 0 && means[k].count > 0
    ensures !Precedes(means, i, i)
    ensures i != j ==> (Precedes(means, i, j) <==> !Precedes(means, j, i))
    ensures Precedes(means, i, j) && Precedes(means, j, k) ==> Precedes(means, i, k)
  {
    MeanLessOrder(means[i], means[j], means[k]);
    MeanLessOrder(means[j], means[i], means[k]);
    MeanLessOrder(means[i], means[k], means[j]);
    MeanLessOrder(means[k], means[j], means[i]);
    MeanLessOrder(means[j], means[k], means[i]);
    MeanLessOrder(means[k], means[i], means[j]);
  }

  /**
    `s` lists the ids with a non-NaN mean in stable-sort order; an id whose mean
    is NaN (an empty cluster) may stand anywhere.
   */
  ghost predicate InOrder(means: map<nat, Mean>, s: seq<nat>)
  {
    Covers(means, s) &&
    forall p, q :: 0 <= p < q < |s| && means[s[p]].count > 0 && means[s[q]].count > 0 ==>
      Precedes(means, s[p], s[q])
  }

  /** An id that precedes every non-empty id of an ordered list may be put in front of it. */
  lemma ConsInOrder(means: map<nat, Mean>, x: nat, s: seq<nat>)
    requires x in means && InOrder(means, s)
    requires means[x].count > 0 ==> forall e :: e in s && means[e].count > 0 ==> Precedes(means, x, e)
    ensures InOrder(means, [x] + s)
  {
    var r := [x] + s;
    forall p, q | 0 <= p < q < |r| && means[r[p]].count > 0 && means[r[q]].count > 0
      ensures Precedes(means, r[p], r[q])
    {
      if p == 0 {
        assert r[q] == s[q - 1];
      } else {
        assert r[p] == s[p - 1] && r[q] == s[q - 1];
      }
    }
  }

  /** Inserting an id larger than all others keeps an ordered list ordered. */
  lemma {:induction false} InsertByMeanInOrder(means: map<nat, Mean>, x: nat, s: seq<nat>)
    requires x in means && InOrder(means, s)
    requires forall e :: e in s ==> e < x
    ensures InOrder(means, InsertByMean(means, x, s))
  {
    if s == [] {
    } else if MeanLess(means[x], means[s[0]]) {
      forall e | e in s && means[e].count > 0 ensures Precedes(means, x, e) {
        var q :| 0 <= q < |s| && s[q] == e;
        if q > 0 {
          PrecedesOrder(means, x, s[0], e);
        }
      }
      ConsInOrder(means, x, s);
    } else {
      assert s[0] in s;
      var rest := InsertByMean(means, x, s[1..]);
      forall e | e in s[1..] ensures e in s && e < x {
        var q :| 0 <= q < |s[1..]| && s[1..][q] == e;
        assert s[q + 1] == e;
      }
      forall p, q | 0 <= p < q < |s[1..]| && means[s[1..][p]].count > 0 && means[s[1..][q]].count > 0
        ensures Precedes(means, s[1..][p], s[1..][q])
      {
        assert s[1..][p] == s[p + 1] && s[1..][q] == s[q + 1];
      }
      InsertByMeanInOrder(means, x, s[1..]);
      if means[s[0]].count > 0 {
        forall e | e in rest && means[e].count > 0 ensures Precedes(means, s[0], e) {
          assert e in multiset(rest);
          if e != x {
            var q :| 1 <= q < |s| && s[q] == e;
          }
        }
      }
      ConsInOrder(means, s[0], rest);
    }
  }

  /**
    Sorting ids given in ascending order puts the non-empty clusters in stable
    order by mean: ascending mean, ties broken towards the lower id.
   */
  lemma {:induction false} SortByMeanInOrder(means: map<nat, Mean>, ids: seq<nat>)
    requires Covers(means, ids)
    requires forall i, j :: 0 <= i < j < |ids| ==> ids[i] < ids[j]
    ensures InOrder(means, SortByMean(means, ids))
  {
    if ids != [] {
      var init := ids[..|ids| - 1];
      var x := ids[|ids| - 1];
      assert ids == init + [x];
      SortByMeanInOrder(means, init);
      var r0 := SortByMean(means, init);
      forall e | e in r0 ensures e < x {
        assert e in multiset(init);
        var i :| 0 <= i < |init| && init[i] == e;
      }
      InsertByMeanInOrder(means, x, r0);
    }
  }

  /** The ranking lists the non-empty clusters by ascending mean, ties broken towards the lower id. */
  lemma RankedInOrder(means: map<nat, Mean>)
    requires Complete(means)
    ensures InOrder(means, Ranked(means))
  {
    SortByMeanInOrder(means, [0, 1, 2]);
  }

  /** The dict {sorted[2]: 'Hit', sorted[1]: 'Dobry', sorted[0]: 'Longtail'}. */
  function TierMap(ranked: seq<nat>): (tm: map<nat, Label>)
    requires |ranked| == 3
    ensures tm.Keys == {ranked[0], ranked[1], ranked[2]}
    ensures tm[ranked[0]] == Longtail
    ensures ranked[1] != ranked[0] ==> tm[ranked[1]] == Dobry
    ensures ranked[2] != ranked[0] && ranked[2] != ranked[1] ==> tm[ranked[2]] == Hit
  {
    map[ranked[2] := Hit][ranked[1] := Dobry][ranked[0] := Longtail]
  }

  /**
    The id-to-label dict is a bijection from the ids {0, 1, 2} onto the three
    tiers, and the id at rank p gets the tier of level p.
   */
  lemma TierMapBijective(ranked: seq<nat>)
    requires |ranked| == 3 && multiset(ranked) == multiset{0, 1, 2}
    ensures TierMap(ranked).Keys == {0, 1, 2}
    ensures TierMap(ranked).Values == {Longtail, Dobry, Hit}
    ensures forall i, j :: i in TierMap(ranked) && j in TierMap(ranked) && i != j ==>
      TierMap(ranked)[i] != TierMap(ranked)[j]
    ensures forall p :: 0 <= p < 3 ==> Level(TierMap(ranked)[ranked[p]]) == p
  {
    var r := ranked;
    assert r == [r[0], r[1], r[2]];
    assert multiset(r) == multiset{r[0], r[1], r[2]};
    assert r[0] in multiset{0, 1, 2} && r[1] in multiset{0, 1, 2} && r[2] in multiset{0, 1, 2};
    assert 0 in multiset(r) && 1 in multiset(r) && 2 in multiset(r);
    assert r[0] != r[1] && r[0] != r[2] && r[1] != r[2];
  }

  /**
    Cluster `a` gets a lower tier than cluster `b` exactly when `a` comes first
    in the stable sort by mean, provided neither of the two is empty; the third
    cluster may be empty.
   */
  lemma TierFollowsMean(means: map<nat, Mean>, a: nat, b: nat)
    requires Complete(means) && a < 3 && b < 3 && a != b
    requires means[a].count > 0 && means[b].count > 0
    ensures a in TierMap(Ranked(means)) && b in TierMap(Ranked(means))
    ensures Level(TierMap(Ranked(means))[a]) < Level(TierMap(Ranked(means))[b]) <==> Precedes(means, a, b)
  {
    RankedInOrder(means);
    TierFollowsOrder(means, Ranked(means), a, b);
  }

  /** TierFollowsMean for any ordering of the three ids that keeps the non-empty clusters in order. */
  lemma TierFollowsOrder(means: map<nat, Mean>, r: seq<nat>, a: nat, b: nat)
    requires Complete(means) && a < 3 && b < 3 && a != b
    requires means[a].count > 0 && means[b].count > 0
    requires |r| == 3 && multiset(r) == multiset{0, 1, 2} && InOrder(means, r)
    ensures a in TierMap(r) && b in TierMap(r)
    ensures Level(TierMap(r)[a]) < Level(TierMap(r)[b]) <==> Precedes(means, a, b)
  {
    TierMapBijective(r);
    assert a in multiset(r) && b in multiset(r);
    var p :| 0 <= p < 3 && r[p] == a;
    var q :| 0 <= q < 3 && r[q] == b;
    PrecedesOrder(means, a, b, a);
    if q < p {
      assert Precedes(means, b, a);
    }
  }

  /**
    Binary insertion of `x` into the sorted run [a, b], as CPython's list sort
    does for the items after its initial run: `x` goes after every item it is
    not strictly less than.
   */
  function BinaryInsert(means: map<nat, Mean>, x: nat, a: nat, b: nat): seq<nat>
    requires x in means && a in means && b in means
  {
    if MeanLess(means[x], means[b]) then
      (if MeanLess(means[x], means[a]) then [x, a, b] else [a, x, b])
    else [a, b, x]
  }

  /**
    `sorted(cluster_means.items(), key=lambda x: x[1])` as CPython computes it
    for the three items in the order 0, 1, 2, using only `<`: the longest run at
    the front is either non-descending or strictly descending (and then
    reversed), and the item after it is placed by binary insertion. A NaN mean
    compares false both ways, which this ranking keeps as is.
   */
  function ScriptRanked(means: map<nat, Mean>): (r: seq<nat>)
    requires Complete(means)
    ensures |r| == 3 && multiset(r) == multiset{0, 1, 2}
  {
    if MeanLess(means[1], means[0]) then
      if MeanLess(means[2], means[1]) then [2, 1, 0] else BinaryInsert(means, 2, 1, 0)
    else if MeanLess(means[2], means[1]) then BinaryInsert(means, 2, 0, 1)
    else [0, 1, 2]
  }

  /** The stable sort of ids 0 and 1: cluster 1 goes first only on a strictly lower mean. */
  lemma SortedPair(means: map<nat, Mean>)
    requires Complete(means)
    ensures SortByMean(means, [0, 1]) == if MeanLess(means[1], means[0]) then [1, 0] else [0, 1]
  {
    var s0: seq<nat>, s1: seq<nat> := [0], [0, 1];
    assert s0[..0] == [] && s1[..1] == s0;
    assert SortByMean(means, s0) == InsertByMean(means, 0, []) == [0];
    assert SortByMean(means, s1) == InsertByMean(means, 1, [0]);
  }

  /** The stable ranking of the three ids, one insertion at a time. */
  lemma RankedUnfolded(means: map<nat, Mean>)
    requires Complete(means)
    ensures Ranked(means) == if MeanLess(means[1], means[0]) then InsertByMean(means, 2, [1, 0])
                             else InsertByMean(means, 2, [0, 1])
  {
    var s1: seq<nat>, s2: seq<nat> := [0, 1], [0, 1, 2];
    assert s2[..2] == s1;
    SortedPair(means);
    var r1 := SortByMean(means, s1);
    assert Ranked(means) == InsertByMean(means, 2, r1);
    if MeanLess(means[1], means[0]) {
      assert r1 == [1, 0];
    } else {
      assert r1 == [0, 1];
    }
  }

  /** Stable insertion of id 2 into the ranking of ids 0 and 1, written out. */
  lemma InsertIntoPair(means: map<nat, Mean>, a: nat, b: nat)
    requires Complete(means) && a < 2 && b < 2
    ensures InsertByMean(means, 2, [a, b]) ==
      if MeanLess(means[2], means[a]) then [2, a, b]
      else if MeanLess(means[2], means[b]) then [a, 2, b]
      else [a, b, 2]
  {
    var s: seq<nat> := [a, b];
    assert Covers(means, s);
    if !MeanLess(means[2], means[a]) {
      var t: seq<nat> := [b];
      assert s[1..] == t;
      assert Covers(means, t);
      var m2, mb := means[2], means[b];
      assert InsertByMean(means, 2, t) == if MeanLess(m2, mb) then [2, b] else [b, 2];
    }
  }

  /**
    The script's ranking differs from the stable ranking in exactly one
    situation: cluster 1 is empty and cluster 2's mean is below cluster 0's.
    Then every comparison with the NaN is false, so `sorted` takes 0, 1, 2 for
    one non-descending run and leaves it alone.
   */
  lemma ScriptRankedDiverges(means: map<nat, Mean>)
    requires Complete(means)
    ensures ScriptRanked(means) != Ranked(means) <==> means[1].count == 0 && MeanLess(means[2], means[0])
  {
    var m := means;
    RankedUnfolded(m);
    if MeanLess(m[1], m[0]) {
      InsertIntoPair(m, 1, 0);
    } else {
      InsertIntoPair(m, 0, 1);
      if MeanLess(m[2], m[0]) && !MeanLess(m[2], m[1]) {
        assert Ranked(m)[0] == 2 && ScriptRanked(m)[0] == 0;
        if m[1].count > 0 {
          MeanLessOrder(m[2], m[1], m[0]);
        }
      }
    }
  }

  /**
    Ratings [1, 1, 5] with cluster ids [2, 2, 0]: cluster 1 is empty, cluster 2
    has mean 1 and cluster 0 mean 5. The script labels the mean-1 cluster 'Hit'
    and the mean-5 cluster 'Longtail'; the stable ranking labels them
    'Longtail' and 'Dobry'.
   */
  lemma EmptyClusterInvertsTiers()
    ensures var means := MeansOf([1, 1, 5], [2, 2, 0]);
      means[1].count == 0 && MeanLess(means[2], means[0]) &&
      ScriptRanked(means) == [0, 1, 2] && Ranked(means) == [2, 0, 1]
    ensures TierMap([0, 1, 2])[0] == Longtail && TierMap([0, 1, 2])[2] == Hit
    ensures TierMap([2, 0, 1])[2] == Longtail && TierMap([2, 0, 1])[0] == Dobry
  {
    var m := map[0 := Mean(5, 1), 1 := Mean(0, 0), 2 := Mean(2, 2)];
    assert MeansOf([1, 1, 5], [2, 2, 0]) == m by {
      ExampleClusters();
    }
    assert !MeanLess(m[1], m[0]) && !MeanLess(m[2], m[1]) && MeanLess(m[2], m[0]);
    RankedUnfolded(m);
    InsertIntoPair(m, 0, 1);
  }

  /** The cluster sums and sizes of the ratings [1, 1, 5] with ids [2, 2, 0]. */
  lemma ExampleClusters()
    ensures MeanOf([1, 1, 5], [2, 2, 0], 0) == Mean(5, 1)
    ensures MeanOf([1, 1, 5], [2, 2, 0], 1) == Mean(0, 0)
    ensures MeanOf([1, 1, 5], [2, 2, 0], 2) == Mean(2, 2)
  {
    var xs, ids := [1, 1, 5], [2, 2, 0];
    assert xs[1..] == [1, 5] && ids[1..] == [2, 0];
    assert xs[1..][1..] == [5] && ids[1..][1..] == [0];
    assert xs[1..][1..][1..] == [] && ids[1..][1..][1..] == [];
  }

  /** The rank of id `a` in an ordering `r` of the three ids, and the ids other than `a`. */
  lemma RankOf(r: seq<nat>, a: nat) returns (p: nat, b1: nat, b2: nat)
    requires |r| == 3 && multiset(r) == multiset{0, 1, 2} && a < 3
    ensures p < 3 && r[p] == a && a in TierMap(r) && Level(TierMap(r)[a]) == p
    ensures b1 < 3 && b2 < 3 && a != b1 && a != b2 && b1 != b2
    ensures Level(TierMap(r)[b1]) != Level(TierMap(r)[b2])
    ensures 0 <= Level(TierMap(r)[b1]) < 3 && 0 <= Level(TierMap(r)[b2]) < 3
  {
    TierMapBijective(r);
    assert a in multiset(r);
    p :| 0 <= p < 3 && r[p] == a;
    b1, b2 := if a == 0 then 1 else 0, if a == 2 then 1 else 2;
    assert b1 in multiset(r) && b2 in multiset(r);
    var q1 :| 0 <= q1 < 3 && r[q1] == b1;
    var q2 :| 0 <= q2 < 3 && r[q2] == b2;
  }

  /** The cluster whose mean comes before both others' (lower, or tied with a higher id) gets 'Longtail'. */
  lemma LowestIsLongtail(means: map<nat, Mean>, a: nat)
    requires AllUsed(means) && a < 3
    requires forall b :: 0 <= b < 3 && b != a ==> Precedes(means, a, b)
    ensures a in TierMap(Ranked(means)) && TierMap(Ranked(means))[a] == Longtail
  {
    RankedInOrder(means);
    LowestOf(means, Ranked(means), a);
  }

  /** LowestIsLongtail for any ordering of the three ids that keeps the clusters in order. */
  lemma LowestOf(means: map<nat, Mean>, r: seq<nat>, a: nat)
    requires AllUsed(means) && a < 3
    requires forall b :: 0 <= b < 3 && b != a ==> Precedes(means, a, b)
    requires |r| == 3 && multiset(r) == multiset{0, 1, 2} && InOrder(means, r)
    ensures a in TierMap(r) && TierMap(r)[a] == Longtail
  {
    var p, b1, b2 := RankOf(r, a);
    assert Precedes(means, a, b1) && Precedes(means, a, b2);
    TierFollowsOrder(means, r, a, b1);
    TierFollowsOrder(means, r, a, b2);
  }

  /** The cluster whose mean comes after both others' gets 'Hit'. */
  lemma HighestIsHit(means: map<nat, Mean>, a: nat)
    requires AllUsed(means) && a < 3
    requires forall b :: 0 <= b < 3 && b != a ==> Precedes(means, b, a)
    ensures a in TierMap(Ranked(means)) && TierMap(Ranked(means))[a] == Hit
  {
    RankedInOrder(means);
    HighestOf(means, Ranked(means), a);
  }

  /** HighestIsHit for any ordering of the three ids that keeps the clusters in order. */
  lemma HighestOf(means: map<nat, Mean>, r: seq<nat>, a: nat)
    requires AllUsed(means) && a < 3
    requires forall b :: 0 <= b < 3 && b != a ==> Precedes(means, b, a)
    requires |r| == 3 && multiset(r) == multiset{0, 1, 2} && InOrder(means, r)
    ensures a in TierMap(r) && TierMap(r)[a] == Hit
  {
    var p, b1, b2 := RankOf(r, a);
    assert Precedes(means, b1, a) && Precedes(means, b2, a);
    TierFollowsOrder(means, r, b1, a);
    TierFollowsOrder(means, r, b2, a);
  }

  /** Every id is one of the three cluster ids. */
  ghost predicate ValidIds(ids: seq<nat>)
  {
    forall k :: 0 <= k < |ids| ==> ids[k] < 3
  }

  /** The labels of a clustered category: each row gets the label its cluster id maps to. */
  function ClusterTiers(ratings: seq<int>, ids: seq<nat>): (tiers: seq<Label>)
    requires |ratings| == |ids| && ValidIds(ids)
    ensures |tiers| == |ids|
    ensures forall k :: 0 <= k < |tiers| ==> tiers[k] in {Longtail, Dobry, Hit}
  {
    var ranked := Ranked(MeansOf(ratings, ids));
    TierMapBijective(ranked);
    seq(|ids|, k requires 0 <= k < |ids| => TierMap(ranked)[ids[k]])
  }

  /** Two rows get the same tier exactly when they are in the same cluster, and no row is left ''. */
  lemma SameTierIffSameCluster(ratings: seq<int>, ids: seq<nat>, k: nat, l: nat)
    requires |ratings| == |ids| && ValidIds(ids) && k < |ids| && l < |ids|
    ensures ClusterTiers(ratings, ids)[k] == ClusterTiers(ratings, ids)[l] <==> ids[k] == ids[l]
    ensures ClusterTiers(ratings, ids)[k] in {Longtail, Dobry, Hit}
  {
    TierMapBijective(Ranked(MeansOf(ratings, ids)));
  }

  /** When all three cluster ids are used, all three tiers are given out. */
  lemma EveryTierUsed(ratings: seq<int>, ids: seq<nat>)
    requires |ratings| == |ids| && ValidIds(ids)
    requires AllClustersUsed(ids)
    ensures forall t :: t in {Longtail, Dobry, Hit} ==> t in ClusterTiers(ratings, ids)
  {
    var tm := TierMap(Ranked(MeansOf(ratings, ids)));
    TierMapBijective(Ranked(MeansOf(ratings, ids)));
    var tiers := ClusterTiers(ratings, ids);
    forall t | t in {Longtail, Dobry, Hit} ensures t in tiers {
      assert t in tm.Values;
      var c :| c in tm && tm[c] == t;
      ClusterSizePositive(ids, c);
      var k :| 0 <= k < |ids| && ids[k] == c;
      assert tiers[k] == t;
    }
  }

  /** Every cluster id is given to some row. */
  ghost predicate AllClustersUsed(ids: seq<nat>)
  {
    forall c :: 0 <= c < 3 ==> ClusterSize(ids, c) > 0
  }

  /**
    A row in another cluster gets a higher tier exactly when its cluster has the higher mean unscaled rating, or the same mean and
    the higher id.
   */
  lemma TiersFollowMeans(ratings: seq<int>, ids: seq<nat>, k: nat, l: nat)
    requires |ratings| == |ids| && ValidIds(ids)
    requires k < |ids| && l < |ids| && ids[k] != ids[l]
    ensures Level(ClusterTiers(ratings, ids)[k]) < Level(ClusterTiers(ratings, ids)[l])
        <==> Precedes(MeansOf(ratings, ids), ids[k], ids[l])
  {
    ClusterSizePositive(ids, ids[k]);
    ClusterSizePositive(ids, ids[l]);
    TierFollowsMean(MeansOf(ratings, ids), ids[k], ids[l]);
  }

  /** Clusters are intervals of the rating line: of two distinct clusters one lies wholly below the other. */
  ghost predicate Intervals(ratings: seq<int>, ids: seq<nat>)
    requires |ratings| == |ids|
  {
    forall p, q :: 0 <= p < |ids| && 0 <= q < |ids| && ids[p] != ids[q] ==>
      Below(ratings, ids, ids[p], ids[q]) || Below(ratings, ids, ids[q], ids[p])
  }

  /**
    Monotone separation: when the clusters are intervals of the rating line,
    as the clusters of one-dimensional k-means are, a higher unscaled rating never gets a lower tier, and a higher rating in
    another cluster gets a strictly higher tier.
   */
  lemma TiersMonotoneInRating(ratings: seq<int>, ids: seq<nat>, k: nat, l: nat)
    requires |ratings| == |ids| && ValidIds(ids) && Intervals(ratings, ids)
    requires k < |ids| && l < |ids| && ratings[k] < ratings[l]
    ensures Level(ClusterTiers(ratings, ids)[k]) <= Level(ClusterTiers(ratings, ids)[l])
    ensures ids[k] != ids[l] ==> Level(ClusterTiers(ratings, ids)[k]) < Level(ClusterTiers(ratings, ids)[l])
  {
    if ids[k] != ids[l] {
      var a, b := ids[k], ids[l];
      assert !Below(ratings, ids, b, a);
      assert Below(ratings, ids, a, b);
      ClusterSizePositive(ids, a);
      ClusterSizePositive(ids, b);
      SeparatedMeans(ratings, ids, a, b);
      var means := MeansOf(ratings, ids);
      assert means[a] == MeanOf(ratings, ids, a) && means[b] == MeanOf(ratings, ids, b);
      TiersFollowMeans(ratings, ids, k, l);
    }
  }

  /** The number of rows carrying label `t`. */
  function CountOf(labels: seq<Label>, t: Label): nat
  {
    if labels == [] then 0 else (if labels[0] == t then 1 else 0) + CountOf(labels[1..], t)
  }

  lemma {:induction false} CountOfMapped(labels: seq<Label>, ids: seq<nat>, tm: map<nat, Label>, c: nat)
    requires |labels| == |ids| && c in tm
    requires forall k :: 0 <= k < |ids| ==> ids[k] in tm && labels[k] == tm[ids[k]]
    requires forall i, j :: i in tm && j in tm && i != j ==> tm[i] != tm[j]
    ensures CountOf(labels, tm[c]) == ClusterSize(ids, c)
  {
    if ids != [] {
      CountOfMapped(labels[1..], ids[1..], tm, c);
    }
  }

  /**
    The counts the script reports for a clustered category, Hit, Dobry and
    Longtail: the sizes of the clusters ranked highest, middle and lowest.
   */
  function ReportedCounts(ratings: seq<int>, ids: seq<nat>): (counts: (nat, nat, nat))
    requires |ratings| == |ids| && ValidIds(ids)
    ensures counts.0 + counts.1 + counts.2 == |ids|
  {
    var ranked := Ranked(MeansOf(ratings, ids));
    TierMapBijective(ranked);
    ClusterSizesAddUp(ids);
    (ClusterSize(ids, ranked[2]), ClusterSize(ids, ranked[1]), ClusterSize(ids, ranked[0]))
  }

  /** The reported counts are the numbers of rows labelled Hit, Dobry and Longtail. */
  lemma ReportedCountsMatchLabels(ratings: seq<int>, ids: seq<nat>)
    requires |ratings| == |ids| && ValidIds(ids)
    ensures ReportedCounts(ratings, ids).0 == CountOf(ClusterTiers(ratings, ids), Hit)
    ensures ReportedCounts(ratings, ids).1 == CountOf(ClusterTiers(ratings, ids), Dobry)
    ensures ReportedCounts(ratings, ids).2 == CountOf(ClusterTiers(ratings, ids), Longtail)
  {
    var ranked := Ranked(MeansOf(ratings, ids));
    var tm := TierMap(ranked);
    TierMapBijective(ranked);
    var tiers := ClusterTiers(ratings, ids);
    CountOfMapped(tiers, ids, tm, ranked[2]);
    CountOfMapped(tiers, ids, tm, ranked[1]);
    CountOfMapped(tiers, ids, tm, ranked[0]);
  }
}
