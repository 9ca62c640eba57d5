/** Python's `list.sort` and `sorted` as the harness uses them: a stable sort
    by an integer key, and the ascending order of strings. */
module Sorting {

  predicate SortedDesc<T>(s: seq<T>, key: T -> int)
  {
    forall i, j :: 0 <= i < j < |s| ==> key(s[i]) >= key(s[j])
  }

  /** Inserts `x` in front of the first element whose key is not larger, so
      that among equal keys the earlier element stays first. */
  function InsertDesc<T>(x: T, s: seq<T>, key: T -> int): (r: seq<T>)
    ensures |r| == |s| + 1
    ensures multiset(r) == multiset(s) + multiset{x}
  {
    if s == [] || key(s[0]) <= key(x) then [x] + s
    else
      assert s == [s[0]] + s[1..];
      [s[0]] + InsertDesc(x, s[1..], key)
  }

  lemma {:induction false} InsertDescSorted<T>(x: T, s: seq<T>, key: T -> int)
    requires SortedDesc(s, key)
    ensures SortedDesc(InsertDesc(x, s, key), key)
    decreases |s|
  {
    if s != [] && key(s[0]) > key(x) {
      InsertDescSorted(x, s[1..], key);
      var t := InsertDesc(x, s[1..], key);
      forall i | 0 <= i < |t| ensures key(s[0]) >= key(t[i]) {
        assert t[i] in multiset(t);
        assert t[i] in multiset(s[1..]) + multiset{x};
        if t[i] != x {
          assert t[i] in s[1..];
          var j :| 0 <= j < |s[1..]| && s[1..][j] == t[i];
          assert s[j + 1] == t[i];
        }
      }
    }
  }

  /** `s.sort(key=key, reverse=True)`: a stable sort by descending key. */
  function SortDesc<T>(s: seq<T>, key: T -> int): (r: seq<T>)
    ensures |r| == |s|
  {
    if s == [] then [] else InsertDesc(s[0], SortDesc(s[1..], key), key)
  }

  /** The sort returns a permutation of its input, in descending key order. */
  lemma {:induction false} SortDescSpec<T>(s: seq<T>, key: T -> int)
    ensures multiset(SortDesc(s, key)) == multiset(s)
    ensures SortedDesc(SortDesc(s, key), key)
    decreases |s|
  {
    if s != [] {
      assert s == [s[0]] + s[1..];
      SortDescSpec(s[1..], key);
      InsertDescSorted(s[0], SortDesc(s[1..], key), key);
    }
  }

  /** With one key for all elements, the stable sort keeps the order. */
  lemma {:induction false} SortDescConstantKey<T>(s: seq<T>, key: T -> int, k: int)
    requires forall i :: 0 <= i < |s| ==> key(s[i]) == k
    ensures SortDesc(s, key) == s
    decreases |s|
  {
    if s != [] {
      SortDescConstantKey(s[1..], key, k);
      assert s == [s[0]] + s[1..];
    }
  }

  /** No two elements share a name. */
  predicate DistinctBy<T, K(==)>(s: seq<T>, name: T -> K)
  {
    forall i, j :: 0 <= i < j < |s| ==> name(s[i]) != name(s[j])
  }

  /** Inserting an element whose name is new keeps the names distinct,
      and adds nothing but that element. */
  lemma {:induction false} InsertDescDistinct<T, K>(x: T, s: seq<T>, key: T -> int, name: T -> K)
    requires DistinctBy(s, name) && forall i :: 0 <= i < |s| ==> name(s[i]) != name(x)
    ensures DistinctBy(InsertDesc(x, s, key), name)
    ensures forall y :: y in InsertDesc(x, s, key) ==> y == x || y in s
    decreases |s|
  {
    if s != [] && key(s[0]) > key(x) {
      InsertDescDistinct(x, s[1..], key, name);
      var t := InsertDesc(x, s[1..], key);
      forall i | 0 <= i < |t| ensures name(s[0]) != name(t[i]) {
        assert t[i] in t;
        if t[i] != x {
          assert t[i] in s[1..];
          var j :| 0 <= j < |s[1..]| && s[1..][j] == t[i];
          assert s[j + 1] == t[i];
        }
      }
      assert InsertDesc(x, s, key) == [s[0]] + t;
    }
  }

  /** Sorting keeps the names distinct and adds no element. */
  lemma {:induction false} SortDescDistinct<T, K>(s: seq<T>, key: T -> int, name: T -> K)
    requires DistinctBy(s, name)
    ensures DistinctBy(SortDesc(s, key), name)
    ensures forall y :: y in SortDesc(s, key) ==> y in s
    decreases |s|
  {
    if s != [] {
      SortDescDistinct(s[1..], key, name);
      var t := SortDesc(s[1..], key);
      forall i | 0 <= i < |t| ensures name(t[i]) != name(s[0]) {
        assert t[i] in t;
        assert t[i] in s[1..];
        var j :| 0 <= j < |s[1..]| && s[1..][j] == t[i];
        assert s[j + 1] == t[i];
      }
      InsertDescDistinct(s[0], t, key, name);
    }
  }

  /** Python's `<` on strings: the first differing character decides, and a
      proper prefix comes first. */
  predicate LexLess(a: string, b: string)
  {
    if a == [] then b != []
    else if b == [] then false
    else if a[0] != b[0] then a[0] < b[0]
    else LexLess(a[1..], b[1..])
  }

  lemma {:induction false} LexLessIrreflexive(a: string)
    ensures !LexLess(a, a)
    decreases |a|
  {
    if a != [] { LexLessIrreflexive(a[1..]); }
  }

  lemma {:induction false} LexLessTransitive(a: string, b: string, c: string)
    requires LexLess(a, b) && LexLess(b, c)
    ensures LexLess(a, c)
    decreases |a|
  {
    if a != [] && b != [] && c != [] && a[0] == b[0] && b[0] == c[0] {
      LexLessTransitive(a[1..], b[1..], c[1..]);
    }
  }

  lemma {:induction false} LexLessTotal(a: string, b: string)
    requires a != b
    ensures LexLess(a, b) || LexLess(b, a)
    decreases |a|
  {
    if a != [] && b != [] && a[0] == b[0] {
      assert a == [a[0]] + a[1..] && b == [b[0]] + b[1..];
      LexLessTotal(a[1..], b[1..]);
    }
  }

  predicate SortedStrings(s: seq<string>)
  {
    forall i, j :: 0 <= i < j < |s| ==> LexLess(s[i], s[j])
  }

  function InsertString(x: string, s: seq<string>): (r: seq<string>)
    ensures |r| == |s| + 1
    ensures forall y :: y in r <==> y in s || y == x
  {
    if s == [] then [x]
    else if LexLess(x, s[0]) then [x] + s
    else [s[0]] + InsertString(x, s[1..])
  }

  /** Inserting a new key into a sorted list keeps it sorted. */
  lemma {:induction false} InsertStringSorted(x: string, s: seq<string>)
    requires SortedStrings(s) && x !in s
    ensures SortedStrings(InsertString(x, s))
    decreases |s|
  {
    if s == [] {
    } else if LexLess(x, s[0]) {
      forall j | 0 < j < |s| ensures LexLess(x, s[j]) {
        LexLessTransitive(x, s[0], s[j]);
      }
    } else {
      LexLessTotal(x, s[0]);
      assert SortedStrings(s[1..]);
      InsertStringSorted(x, s[1..]);
      var t := InsertString(x, s[1..]);
      forall i | 0 <= i < |t| ensures LexLess(s[0], t[i]) {
        if t[i] != x {
          assert t[i] in s[1..];
          var j :| 0 <= j < |s[1..]| && s[1..][j] == t[i];
          assert s[j + 1] == t[i];
        }
      }
      assert InsertString(x, s) == [s[0]] + t;
    }
  }

  predicate Distinct<T(==)>(s: seq<T>)
  {
    forall i, j :: 0 <= i < j < |s| ==> s[i] != s[j]
  }

  /** `sorted(keys)` over distinct strings. */
  function SortStrings(keys: seq<string>): (r: seq<string>)
    ensures |r| == |keys|
    ensures forall y :: y in r <==> y in keys
  {
    if keys == [] then [] else InsertString(keys[0], SortStrings(keys[1..]))
  }

  /** The strings come out in ascending order. */
  lemma {:induction false} SortStringsSorted(keys: seq<string>)
    requires Distinct(keys)
    ensures SortedStrings(SortStrings(keys))
    decreases |keys|
  {
    if keys != [] {
      assert Distinct(keys[1..]);
      assert keys[0] !in keys[1..];
      SortStringsSorted(keys[1..]);
      InsertStringSorted(keys[0], SortStrings(keys[1..]));
    }
  }
}
