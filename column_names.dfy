/**
  Normalisation of the input table's column names. Exported tables may carry
  a source prefix on their column names ("p.TOW_KOD", "kat.NAZWA", "so.RATING");
  before anything else the script builds a rename map for the prefixed columns
  and renames them.
 */
module ColumnNames {

  import opened Wrappers

  predicate StartsWith(s: string, p: string)
  {
    |p| <= |s| && s[..|p|] == p
  }

  /** `p` occurs in `s` at some position. */
  ghost predicate Occurs(s: string, p: string)
  {
    exists i :: 0 <= i <= |s| && StartsWith(s[i..], p)
  }

  /**
    The string method `s.replace(p, '')`: scanning from the left, every
    non-overlapping occurrence of `p` is deleted, not only a leading one.
   */
  function RemoveAll(s: string, p: string): (r: string)
    requires p != []
    ensures |r| <= |s|
    decreases |s|
  {
    if s == [] then []
    else if StartsWith(s, p) then RemoveAll(s[|p|..], p)
    else [s[0]] + RemoveAll(s[1..], p)
  }

  /** Each occurrence that is deleted shortens the string by a whole `p`. */
  lemma {:induction false} RemoveAllShrinks(s: string, p: string)
    requires p != [] && Occurs(s, p)
    ensures |RemoveAll(s, p)| + |p| <= |s|
    decreases |s|
  {
    var i :| 0 <= i <= |s| && StartsWith(s[i..], p);
    if !StartsWith(s, p) {
      assert i != 0;
      assert s[1..][i - 1..] == s[i..];
      RemoveAllShrinks(s[1..], p);
    }
  }

  /** Replacing leaves a string unchanged exactly when the pattern does not occur in it. */
  lemma {:induction false} RemoveAllIdentity(s: string, p: string)
    requires p != []
    ensures RemoveAll(s, p) == s <==> !Occurs(s, p)
    decreases |s|
  {
    if Occurs(s, p) {
      RemoveAllShrinks(s, p);
    } else if s != [] {
      assert s[0..] == s;
      assert !StartsWith(s, p);
      forall i | 0 <= i <= |s[1..]|
        ensures !StartsWith(s[1..][i..], p)
      {
        assert s[1..][i..] == s[i + 1..];
      }
      RemoveAllIdentity(s[1..], p);
      assert s == [s[0]] + s[1..];
    }
  }

  /** The three prefixes, in the order in which the rename loop tests them. */
  const Prefixes: seq<string> := ["p.", "kat.", "so."]

  /** The prefix whose rule fires for `col`: the first of `Prefixes` that `col` starts with. */
  function Rule(col: string): (r: Option<string>)
    ensures r.Some? ==> r.value in Prefixes && StartsWith(col, r.value)
    ensures r.None? <==> forall p :: p in Prefixes ==> !StartsWith(col, p)
  {
    if StartsWith(col, "p.") then Some("p.")
    else if StartsWith(col, "kat.") then Some("kat.")
    else if StartsWith(col, "so.") then Some("so.")
    else None
  }

  /** The name a column has after the rename. */
  function Normalized(col: string): (r: string)
    ensures r == col <==> Rule(col).None?
    ensures Rule(col).Some? ==> |r| + |Rule(col).value| <= |col|
  {
    match Rule(col)
    case None => col
    case Some(p) =>
      assert col[0..] == col;
      assert Occurs(col, p);
      RemoveAllIdentity(col, p);
      RemoveAllShrinks(col, p);
      RemoveAll(col, p)
  }

  /**
    No column starts with two of the prefixes, so the order of the tests does not
    matter: the rule that fires is the one listed prefix the column starts with.
   */
  lemma RuleIsTheMatchingPrefix(col: string, p: string)
    ensures Rule(col) == Some(p) <==> p in Prefixes && StartsWith(col, p)
  {
    if StartsWith(col, "p.") {
      assert col[0] == "p."[0] == 'p';
      assert !StartsWith(col, "kat.") by { assert "kat."[0] == 'k'; }
      assert !StartsWith(col, "so.") by { assert "so."[0] == 's'; }
    } else if StartsWith(col, "kat.") {
      assert col[0] == "kat."[0] == 'k';
      assert !StartsWith(col, "so.") by { assert "so."[0] == 's'; }
    }
  }

  /** Occurrences after the prefix go too: "p.group.id" is renamed "grouid". */
  lemma InnerOccurrencesRemoved()
    ensures Normalized("p.group.id") == "grouid"
  {
    assert StartsWith("p.group.id", "p.");
    assert RemoveAll("p.group.id", "p.") == RemoveAll("group.id", "p.");
    assert RemoveAll("p.id", "p.") == "id";
  }

  /**
    The rename loop and the rename: a map from each prefixed column to its
    stripped name is filled in a loop, and is applied when it is not empty.
   */
  method NormalizeColumns(columns: seq<string>) returns (renamed: seq<string>)
    ensures |renamed| == |columns|
    ensures forall i :: 0 <= i < |columns| ==> renamed[i] == Normalized(columns[i])
  {
    var mapping: map<string, string> := map[];
    for i := 0 to |columns|
      invariant forall c :: c in mapping <==> c in columns[..i] && Rule(c).Some?
      invariant forall c :: c in mapping ==> mapping[c] == Normalized(c)
    {
      var col := columns[i];
      assert columns[..i + 1] == columns[..i] + [col];
      if StartsWith(col, "p.") {
        mapping := mapping[col := RemoveAll(col, "p.")];
      } else if StartsWith(col, "kat.") {
        mapping := mapping[col := RemoveAll(col, "kat.")];
      } else if StartsWith(col, "so.") {
        mapping := mapping[col := RemoveAll(col, "so.")];
      }
    }
    assert columns[..|columns|] == columns;
    renamed := columns;
    if mapping != map[] {
      renamed := seq(|columns|, i requires 0 <= i < |columns| =>
        if columns[i] in mapping then mapping[columns[i]] else columns[i]);
    }
  }
}
