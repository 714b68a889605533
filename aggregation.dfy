/**
  The group-by aggregation: rows are grouped on (TOW_KOD, NAZWA); RATING is
  summed within a group and every other column takes the group's first value.
  As in pandas' groupby, rows whose category is null form no group, and the
  groups come out sorted by key.
 */
module Aggregation {

  import opened Wrappers
  import opened Records

  /** Some row of the table has key `k`. */
  ghost predicate HasKey(rows: seq<Record>, k: Key)
  {
    exists i :: 0 <= i < |rows| && KeyOf(rows[i]) == Some(k)
  }

  lemma HasKeyCons(rows: seq<Record>)
    requires rows != []
    ensures forall k :: HasKey(rows, k) <==> KeyOf(rows[0]) == Some(k) || HasKey(rows[1..], k)
  {
    forall k | HasKey(rows, k) && KeyOf(rows[0]) != Some(k)
      ensures HasKey(rows[1..], k)
    {
      var i :| 0 <= i < |rows| && KeyOf(rows[i]) == Some(k);
      assert rows[1..][i - 1] == rows[i];
    }
    forall k | HasKey(rows[1..], k)
      ensures HasKey(rows, k)
    {
      var i :| 0 <= i < |rows[1..]| && KeyOf(rows[1..][i]) == Some(k);
      assert rows[i + 1] == rows[1..][i];
    }
  }

  /** The sum of RATING over the rows with key `k` (the 'sum' aggregation). */
  function SumFor(rows: seq<Record>, k: Key): (sum: int)
    ensures !HasKey(rows, k) ==> sum == 0
  {
    if rows == [] then 0
    else
      HasKeyCons(rows);
      (if KeyOf(rows[0]) == Some(k) then rows[0].rating else 0) + SumFor(rows[1..], k)
  }

  /** The position of the first row with key `k` (the row the 'first' aggregation reads). */
  function FirstIndex(rows: seq<Record>, k: Key): (i: nat)
    requires HasKey(rows, k)
    ensures i < |rows| && KeyOf(rows[i]) == Some(k)
    ensures forall j :: 0 <= j < i ==> KeyOf(rows[j]) != Some(k)
  {
    if KeyOf(rows[0]) == Some(k) then 0
    else
      HasKeyCons(rows);
      1 + FirstIndex(rows[1..], k)
  }

  /** Inserts a key into a sorted key list unless it is already there. */
  function Insert(k: Key, ks: seq<Key>): seq<Key>
  {
    if ks == [] then [k]
    else if k == ks[0] then ks
    else if KeyLess(k, ks[0]) then [k] + ks
    else [ks[0]] + Insert(k, ks[1..])
  }

  lemma {:induction false} InsertSorted(k: Key, ks: seq<Key>)
    requires StrictlySorted(ks)
    ensures StrictlySorted(Insert(k, ks))
    ensures forall x :: x in Insert(k, ks) <==> x == k || x in ks
  {
    if ks == [] || k == ks[0] {
    } else if KeyLess(k, ks[0]) {
      forall j | 0 < j < |ks| ensures KeyLess(k, ks[j]) {
        KeyLessOrder(k, ks[0], ks[j]);
      }
    } else {
      KeyLessOrder(k, ks[0], k);
      var rest := Insert(k, ks[1..]);
      InsertSorted(k, ks[1..]);
      forall x | x in rest ensures KeyLess(ks[0], x) {
        if x != k {
          var j :| 1 <= j < |ks| && ks[j] == x;
        }
      }
      var r := [ks[0]] + rest;
      forall i, j | 0 <= i < j < |r| ensures KeyLess(r[i], r[j]) {
        if i == 0 {
          assert r[j] == rest[j - 1];
        } else {
          assert r[i] == rest[i - 1] && r[j] == rest[j - 1];
        }
      }
      assert forall x :: x in ks <==> x == ks[0] || x in ks[1..] by {
        assert ks == [ks[0]] + ks[1..];
      }
    }
  }

  /** The distinct keys of the table, in ascending key order. */
  function SortedKeys(rows: seq<Record>): (ks: seq<Key>)
    ensures StrictlySorted(ks)
    ensures forall k :: k in ks <==> HasKey(rows, k)
  {
    if rows == [] then []
    else
      HasKeyCons(rows);
      var rest := SortedKeys(rows[1..]);
      match KeyOf(rows[0])
      case None => rest
      case Some(k) =>
        InsertSorted(k, rest);
        Insert(k, rest)
  }

  /** The aggregated row of group `k`. */
  function GroupRow(rows: seq<Record>, k: Key): (r: Record)
    requires HasKey(rows, k)
    ensures KeyOf(r) == Some(k)
  {
    Record(k.code, Some(k.category), rows[FirstIndex(rows, k)].longName, SumFor(rows, k))
  }

  /**
    `groupby([TOW_KOD, NAZWA], as_index=False).agg(...)`: one row per distinct
    key of the input, in ascending key order, holding the group's RATING sum
    and the LONG_NAME_CLEAN of the group's first row.
   */
  function Aggregate(rows: seq<Record>): (out: seq<Record>)
    ensures forall i :: 0 <= i < |out| ==> KeyOf(out[i]).Some?
    ensures forall k :: HasKey(out, k) <==> HasKey(rows, k)
    ensures forall i, j :: 0 <= i < j < |out| ==> KeyLess(KeyOf(out[i]).value, KeyOf(out[j]).value)
    ensures forall i, j :: 0 <= i < |out| && 0 <= j < |out| && i != j ==> KeyOf(out[i]) != KeyOf(out[j])
    ensures forall i :: 0 <= i < |out| ==>
      var k := KeyOf(out[i]).value;
      HasKey(rows, k) && out[i].rating == SumFor(rows, k) &&
      out[i].longName == rows[FirstIndex(rows, k)].longName
  {
    var ks := SortedKeys(rows);
    var out := seq(|ks|, i requires 0 <= i < |ks| => GroupRow(rows, ks[i]));
    assert forall i :: 0 <= i < |out| ==> KeyOf(out[i]) == Some(ks[i]);
    assert forall k :: HasKey(out, k) <==> k in ks;
    assert forall i, j :: 0 <= i < |out| && 0 <= j < |out| && i != j ==> KeyOf(out[i]) != KeyOf(out[j]) by {
      forall i, j | 0 <= i < |out| && 0 <= j < |out| && i != j
        ensures KeyOf(out[i]) != KeyOf(out[j])
      {
        KeyLessOrder(ks[i], ks[i], ks[i]);
        KeyLessOrder(ks[j], ks[j], ks[j]);
      }
    }
    out
  }

  /** The RATING total over the rows that have a category. */
  function Total(rows: seq<Record>): int
  {
    if rows == [] then 0
    else (if KeyOf(rows[0]).Some? then rows[0].rating else 0) + Total(rows[1..])
  }

  /** The sum of the group sums over a list of keys. */
  function SumOverKeys(rows: seq<Record>, ks: seq<Key>): int
  {
    if ks == [] then 0 else SumFor(rows, ks[0]) + SumOverKeys(rows, ks[1..])
  }

  lemma {:induction false} SumOverKeysCons(rows: seq<Record>, ks: seq<Key>)
    requires rows != []
    requires forall i, j :: 0 <= i < j < |ks| ==> ks[i] != ks[j]
    ensures SumOverKeys(rows, ks) ==
      (if KeyOf(rows[0]).Some? && KeyOf(rows[0]).value in ks then rows[0].rating else 0)
      + SumOverKeys(rows[1..], ks)
  {
    if ks != [] {
      SumOverKeysCons(rows, ks[1..]);
      if KeyOf(rows[0]) == Some(ks[0]) {
        assert ks[0] !in ks[1..];
      } else if KeyOf(rows[0]).Some? {
        assert KeyOf(rows[0]).value in ks <==> KeyOf(rows[0]).value in ks[1..] by {
          assert ks == [ks[0]] + ks[1..];
        }
      }
    }
  }

  /** Summing the group sums of a duplicate-free list of keys that covers the table gives the table's total. */
  lemma {:induction false} SumOverCoveringKeys(rows: seq<Record>, ks: seq<Key>)
    requires forall i, j :: 0 <= i < j < |ks| ==> ks[i] != ks[j]
    requires forall k :: HasKey(rows, k) ==> k in ks
    ensures SumOverKeys(rows, ks) == Total(rows)
  {
    if rows == [] {
      SumOverNoRows(ks);
    } else {
      HasKeyCons(rows);
      SumOverKeysCons(rows, ks);
      SumOverCoveringKeys(rows[1..], ks);
    }
  }

  lemma {:induction false} SumOverNoRows(ks: seq<Key>)
    ensures SumOverKeys([], ks) == 0
  {
    if ks != [] {
      SumOverNoRows(ks[1..]);
    }
  }

  lemma {:induction false} TotalOfGroups(rows: seq<Record>, ks: seq<Key>)
    requires forall k :: k in ks ==> HasKey(rows, k)
    ensures Total(seq(|ks|, i requires 0 <= i < |ks| => GroupRow(rows, ks[i]))) == SumOverKeys(rows, ks)
  {
    var out := seq(|ks|, i requires 0 <= i < |ks| => GroupRow(rows, ks[i]));
    if ks != [] {
      TotalOfGroups(rows, ks[1..]);
      assert out[1..] == seq(|ks[1..]|, i requires 0 <= i < |ks[1..]| => GroupRow(rows, ks[1..][i]));
    }
  }

  /** Aggregation neither loses nor invents rating: the sums of the groups add up to the input's total. */
  lemma AggregatePreservesTotal(rows: seq<Record>)
    ensures Total(Aggregate(rows)) == Total(rows)
  {
    var ks := SortedKeys(rows);
    forall i, j | 0 <= i < j < |ks| ensures ks[i] != ks[j] {
      KeyLessOrder(ks[i], ks[j], ks[i]);
    }
    TotalOfGroups(rows, ks);
    SumOverCoveringKeys(rows, ks);
  }

  /** A group of one row sums to that row's rating. */
  lemma {:induction false} SumForSingle(rows: seq<Record>, k: Key, i: nat)
    requires i < |rows| && KeyOf(rows[i]) == Some(k)
    requires forall j :: 0 <= j < |rows| && j != i ==> KeyOf(rows[j]) != Some(k)
    ensures SumFor(rows, k) == rows[i].rating
  {
    if i == 0 {
      forall j | 0 <= j < |rows[1..]| ensures KeyOf(rows[1..][j]) != Some(k) {
        assert rows[1..][j] == rows[j + 1];
      }
    } else {
      forall j | 0 <= j < |rows[1..]| && j != i - 1 ensures KeyOf(rows[1..][j]) != Some(k) {
        assert rows[1..][j] == rows[j + 1];
      }
      SumForSingle(rows[1..], k, i - 1);
    }
  }

  /** Every row has a category and no two rows share a key. */
  ghost predicate UniqueKeys(rows: seq<Record>)
  {
    (forall i :: 0 <= i < |rows| ==> KeyOf(rows[i]).Some?) &&
    (forall i, j :: 0 <= i < |rows| && 0 <= j < |rows| && i != j ==> KeyOf(rows[i]) != KeyOf(rows[j]))
  }

  /** In a table with unique keys every row is its own group. */
  lemma GroupOfUniqueRow(rows: seq<Record>, i: nat)
    requires UniqueKeys(rows) && i < |rows|
    ensures HasKey(rows, KeyOf(rows[i]).value)
    ensures GroupRow(rows, KeyOf(rows[i]).value) == rows[i]
  {
    var k := KeyOf(rows[i]).value;
    SumForSingle(rows, k, i);
    var f := FirstIndex(rows, k);
    assert f == i;
  }

  /** Aggregating rows whose keys are already unique keeps exactly the same rows. */
  lemma AggregateKeepsUniqueRows(rows: seq<Record>)
    requires UniqueKeys(rows)
    ensures forall x :: x in Aggregate(rows) <==> x in rows
  {
    var out := Aggregate(rows);
    forall x | x in rows ensures x in out {
      var i :| 0 <= i < |rows| && rows[i] == x;
      GroupOfUniqueRow(rows, i);
      var k := KeyOf(x).value;
      var j :| 0 <= j < |out| && KeyOf(out[j]) == Some(k);
      assert out[j] == GroupRow(rows, k);
    }
    forall x | x in out ensures x in rows {
      var j :| 0 <= j < |out| && out[j] == x;
      var k := KeyOf(x).value;
      var i := FirstIndex(rows, k);
      GroupOfUniqueRow(rows, i);
      assert out[j] == GroupRow(rows, k);
    }
  }

  /** Rows in the shape Aggregate produces: every row keyed, keys strictly ascending. */
  ghost predicate KeyedAndSorted(rows: seq<Record>)
  {
    (forall i :: 0 <= i < |rows| ==> KeyOf(rows[i]).Some?) &&
    (forall i, j :: 0 <= i < j < |rows| ==> KeyLess(KeyOf(rows[i]).value, KeyOf(rows[j]).value))
  }

  /** A table that is already keyed and sorted is a fixed point of the aggregation. */
  lemma AggregateFixedPoint(rows: seq<Record>)
    requires KeyedAndSorted(rows)
    ensures Aggregate(rows) == rows
  {
    var keys := seq(|rows|, i requires 0 <= i < |rows| => KeyOf(rows[i]).value);
    assert StrictlySorted(keys);
    forall i, j | 0 <= i < |rows| && 0 <= j < |rows| && i != j
      ensures KeyOf(rows[i]) != KeyOf(rows[j])
    {
      if i < j { KeyLessOrder(keys[i], keys[j], keys[i]); } else { KeyLessOrder(keys[j], keys[i], keys[j]); }
    }
    assert UniqueKeys(rows);
    forall k ensures k in keys <==> k in SortedKeys(rows) {
      if k in keys {
        var i :| 0 <= i < |keys| && keys[i] == k;
        assert KeyOf(rows[i]) == Some(k);
      }
      if HasKey(rows, k) {
        var i :| 0 <= i < |rows| && KeyOf(rows[i]) == Some(k);
        assert keys[i] == k;
      }
    }
    StrictlySortedUnique(keys, SortedKeys(rows));
    var out := Aggregate(rows);
    forall i | 0 <= i < |rows| ensures out[i] == rows[i] {
      GroupOfUniqueRow(rows, i);
    }
  }

  /** Aggregating twice is the same as aggregating once. */
  lemma AggregateIdempotent(rows: seq<Record>)
    ensures Aggregate(Aggregate(rows)) == Aggregate(rows)
  {
    AggregateFixedPoint(Aggregate(rows));
  }

  /** Two rows of the same product and category collapse into one whose rating is their sum. */
  lemma ThreeRowScenario()
    ensures Aggregate([Record("P1", Some("A"), "x", 5), Record("P1", Some("A"), "y", 3),
                       Record("P2", Some("A"), "z", 8)])
         == [Record("P1", Some("A"), "x", 8), Record("P2", Some("A"), "z", 8)]
  {
    var rows := [Record("P1", Some("A"), "x", 5), Record("P1", Some("A"), "y", 3),
                 Record("P2", Some("A"), "z", 8)];
    var k1, k2 := Key("P1", "A"), Key("P2", "A");
    assert StrLess("P1", "P2") by { assert "P1"[1..] == "1" && "P2"[1..] == "2"; }
    assert SortedKeys(rows) == [k1, k2] by {
      assert rows[1..] == [rows[1], rows[2]] && rows[1..][1..] == [rows[2]];
      assert SortedKeys(rows[1..][1..]) == [k2];
      assert SortedKeys(rows[1..]) == [k1, k2];
    }
    assert HasKey(rows, k1) && HasKey(rows, k2) by {
      assert KeyOf(rows[0]) == Some(k1) && KeyOf(rows[2]) == Some(k2);
    }
    assert SumFor(rows, k1) == 8 by {
      assert rows[1..] == [rows[1], rows[2]] && rows[1..][1..] == [rows[2]];
    }
    SumForSingle(rows, k2, 2);
    assert FirstIndex(rows, k2) == 2;
  }
}
