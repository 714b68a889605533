/**
  The rows of the product table after column normalisation: product code
  (TOW_KOD), category (NAZWA, possibly null), long name (LONG_NAME_CLEAN) and
  the popularity metric (RATING, an integer so that sums are exact), together
  with the (TOW_KOD, NAZWA) grouping key and the order pandas sorts keys in.
 */
module Records {

  import opened Wrappers

  datatype Record = Record(code: string, category: Option<string>, longName: string, rating: int)

  /** The grouping key; it exists only for rows whose category is not null. */
  datatype Key = Key(code: string, category: string)

  function KeyOf(r: Record): (k: Option<Key>)
    ensures k.None? <==> r.category.None?
    ensures k.Some? ==> k.value.code == r.code && r.category == Some(k.value.category)
  {
    match r.category
    case None => None
    case Some(c) => Some(Key(r.code, c))
  }

  /** Lexicographic order on strings by character code, the order Python compares strings in. */
  predicate StrLess(a: string, b: string)
    ensures StrLess(a, b) ==> a != b
  {
    if a == [] then b != []
    else if b == [] then false
    else a[0] < b[0] || (a[0] == b[0] && StrLess(a[1..], b[1..]))
  }

  lemma {:induction false} StrLessTransitive(a: string, b: string, c: string)
    requires StrLess(a, b) && StrLess(b, c)
    ensures StrLess(a, c)
  {
    if a != [] && b != [] && c != [] && a[0] == b[0] == c[0] {
      StrLessTransitive(a[1..], b[1..], c[1..]);
    }
  }

  lemma {:induction false} StrLessTotal(a: string, b: string)
    ensures a == b || StrLess(a, b) || StrLess(b, a)
  {
    if a != [] && b != [] && a[0] == b[0] {
      StrLessTotal(a[1..], b[1..]);
      if a[1..] == b[1..] {
        assert a == [a[0]] + a[1..] && b == [b[0]] + b[1..];
      }
    }
  }

  /** Keys compare by product code first and by category second, as in groupby's key sort. */
  predicate KeyLess(a: Key, b: Key)
    ensures KeyLess(a, b) ==> a != b
  {
    StrLess(a.code, b.code) || (a.code == b.code && StrLess(a.category, b.category))
  }

  /** KeyLess is a strict total order. */
  lemma KeyLessOrder(a: Key, b: Key, c: Key)
    ensures !KeyLess(a, a)
    ensures KeyLess(a, b) && KeyLess(b, c) ==> KeyLess(a, c)
    ensures a == b || KeyLess(a, b) || KeyLess(b, a)
  {
    StrLessTotal(a.code, b.code);
    StrLessTotal(a.category, b.category);
    if KeyLess(a, b) && KeyLess(b, c) {
      if StrLess(a.code, b.code) && StrLess(b.code, c.code) {
        StrLessTransitive(a.code, b.code, c.code);
      } else if a.code == b.code == c.code {
        StrLessTransitive(a.category, b.category, c.category);
      }
    }
  }

  /** Strictly ascending in key order, hence free of duplicates. */
  ghost predicate StrictlySorted(ks: seq<Key>)
  {
    forall i, j :: 0 <= i < j < |ks| ==> KeyLess(ks[i], ks[j])
  }

  /** Two strictly sorted key sequences with the same elements are the same sequence. */
  lemma {:induction false} StrictlySortedUnique(a: seq<Key>, b: seq<Key>)
    requires StrictlySorted(a) && StrictlySorted(b)
    requires forall k :: k in a <==> k in b
    ensures a == b
    decreases |a|
  {
    assert a == [] <==> b == [] by {
      if a != [] { assert a[0] in a; }
      if b != [] { assert b[0] in b; }
    }
    if a != [] {
      assert a[0] in b && b[0] in a;
      if a[0] != b[0] {
        var i :| 0 <= i < |a| && a[i] == b[0];
        var j :| 0 <= j < |b| && b[j] == a[0];
        assert KeyLess(a[0], b[0]) && KeyLess(b[0], a[0]);
        KeyLessOrder(a[0], b[0], a[0]);
        assert false;
      }
      forall k ensures k in a[1..] <==> k in b[1..] {
        if k in a[1..] {
          var i :| 1 <= i < |a| && a[i] == k;
          assert KeyLess(a[0], k);
          KeyLessOrder(k, k, k);
          assert k in b;
        }
        if k in b[1..] {
          var j :| 1 <= j < |b| && b[j] == k;
          assert KeyLess(b[0], k);
          KeyLessOrder(k, k, k);
          assert k in a;
        }
      }
      StrictlySortedUnique(a[1..], b[1..]);
      assert a == [a[0]] + a[1..] && b == [b[0]] + b[1..];
    }
  }
}
