/** Python's list slicing, over `seq`. */
module PySeq {

  /** Where a slice bound `i` lands in a sequence of length `n`: negative
      bounds count from the end, and bounds are clamped to `0..n`. */
  function Bound(i: int, n: nat): (b: nat)
    ensures b <= n
    ensures 0 <= i <= n ==> b == i
  {
    if i < 0 then (if i + n < 0 then 0 else i + n) else if i > n then n else i
  }

  /** `s[a:b]`. */
  function Slice<T>(s: seq<T>, a: int, b: int): (r: seq<T>)
    ensures |r| <= |s|
    ensures 0 <= a <= b <= |s| ==> r == s[a..b]
    ensures 0 <= b <= a ==> r == []
  {
    var lo, hi := Bound(a, |s|), Bound(b, |s|);
    if lo >= hi then [] else s[lo..hi]
  }

  /** `[f(x) for x in s]`. */
  function Map<A, B>(s: seq<A>, f: A -> B): (r: seq<B>)
    ensures |r| == |s|
  {
    if s == [] then [] else [f(s[0])] + Map(s[1..], f)
  }

  lemma {:induction false} MapAt<A, B>(s: seq<A>, f: A -> B, i: nat)
    requires i < |s|
    ensures Map(s, f)[i] == f(s[i])
    decreases i
  {
    if i > 0 { MapAt(s[1..], f, i - 1); }
  }

  /** Mapping commutes with slicing. */
  lemma {:induction false} MapSlice<A, B>(s: seq<A>, f: A -> B, a: nat, b: nat)
    requires a <= b <= |s|
    ensures Map(s[a..b], f) == Map(s, f)[a..b]
  {
    forall i | 0 <= i < b - a ensures Map(s[a..b], f)[i] == Map(s, f)[a + i] {
      MapAt(s[a..b], f, i);
      MapAt(s, f, a + i);
    }
  }

  /** `[x for x in s if keep(x)]`. */
  function Filter<T>(s: seq<T>, keep: T -> bool): (r: seq<T>)
    ensures |r| <= |s|
  {
    if s == [] then [] else (if keep(s[0]) then [s[0]] else []) + Filter(s[1..], keep)
  }

  /** The filter keeps exactly the elements that pass, and drops nothing
      that passes. */
  lemma {:induction false} FilterSpec<T>(s: seq<T>, keep: T -> bool)
    ensures forall x :: x in Filter(s, keep) <==> x in s && keep(x)
  {
    if s != [] {
      FilterSpec(s[1..], keep);
      assert s == [s[0]] + s[1..];
    }
  }

  /** Filtering again with the same test changes nothing. */
  lemma {:induction false} FilterIdempotent<T>(s: seq<T>, keep: T -> bool)
    ensures Filter(Filter(s, keep), keep) == Filter(s, keep)
  {
    if s != [] {
      var t := Filter(s[1..], keep);
      FilterIdempotent(s[1..], keep);
      if keep(s[0]) {
        assert Filter(s, keep) == [s[0]] + t;
        assert ([s[0]] + t)[1..] == t;
      } else {
        assert Filter(s, keep) == t;
      }
    }
  }

  /** Filtering a concatenation filters each part. */
  lemma {:induction false} FilterAppend<T>(a: seq<T>, b: seq<T>, keep: T -> bool)
    ensures Filter(a + b, keep) == Filter(a, keep) + Filter(b, keep)
  {
    if a == [] {
      assert a + b == b;
    } else {
      var ab := a + b;
      var h := if keep(a[0]) then [a[0]] else [];
      assert ab != [] && ab[0] == a[0];
      assert ab[1..] == a[1..] + b;
      assert Filter(ab, keep) == h + Filter(a[1..] + b, keep);
      assert Filter(a, keep) == h + Filter(a[1..], keep);
      FilterAppend(a[1..], b, keep);
      AppendAssoc(h, Filter(a[1..], keep), Filter(b, keep));
    }
  }

  lemma {:induction false} AppendAssoc<T>(a: seq<T>, b: seq<T>, c: seq<T>)
    ensures a + (b + c) == (a + b) + c
  {
  }

  /** A loop over `s` with a `seen` set of keys: an element is kept when
      its key was not seen, and its key is then added. */
  function UniqueBy<T, K>(s: seq<T>, key: T -> K, seen: set<K>): (r: seq<T>)
    ensures |r| <= |s|
  {
    if s == [] then []
    else if key(s[0]) in seen then UniqueBy(s[1..], key, seen)
    else [s[0]] + UniqueBy(s[1..], key, seen + {key(s[0])})
  }

  /** Kept elements come from `s` and their keys were not seen before. */
  lemma {:induction false} UniqueByFrom<T, K>(s: seq<T>, key: T -> K, seen: set<K>)
    ensures forall x :: x in UniqueBy(s, key, seen) ==> x in s && key(x) !in seen
  {
    if s != [] {
      if key(s[0]) in seen {
        UniqueByFrom(s[1..], key, seen);
      } else {
        UniqueByFrom(s[1..], key, seen + {key(s[0])});
      }
    }
  }

  /** The keys of the kept elements are pairwise distinct. */
  lemma {:induction false} UniqueByDistinct<T, K>(s: seq<T>, key: T -> K, seen: set<K>)
    ensures forall i, j :: 0 <= i < j < |UniqueBy(s, key, seen)| ==>
      key(UniqueBy(s, key, seen)[i]) != key(UniqueBy(s, key, seen)[j])
  {
    if s != [] {
      var x := s[0];
      if key(x) in seen {
        UniqueByDistinct(s[1..], key, seen);
      } else {
        var rest := UniqueBy(s[1..], key, seen + {key(x)});
        UniqueByDistinct(s[1..], key, seen + {key(x)});
        UniqueByFrom(s[1..], key, seen + {key(x)});
        assert UniqueBy(s, key, seen) == [x] + rest;
        forall j | 0 < j < |[x] + rest|
          ensures key(([x] + rest)[j]) != key(x)
        {
          assert ([x] + rest)[j] == rest[j - 1];
          assert rest[j - 1] in rest;
        }
      }
    }
  }

  /** Each kept element is the first element of `s` with its key. */
  lemma {:induction false} UniqueByFirst<T, K>(s: seq<T>, key: T -> K, seen: set<K>)
    ensures forall x :: x in UniqueBy(s, key, seen) ==>
      exists i :: 0 <= i < |s| && s[i] == x && forall k :: 0 <= k < i ==> key(s[k]) != key(x)
  {
    if s != [] {
      var x := s[0];
      var seen' := if key(x) in seen then seen else seen + {key(x)};
      UniqueByFirst(s[1..], key, seen');
      UniqueByFrom(s[1..], key, seen');
      forall y | y in UniqueBy(s, key, seen)
        ensures exists i :: 0 <= i < |s| && s[i] == y && forall k :: 0 <= k < i ==> key(s[k]) != key(y)
      {
        if y == x && key(x) !in seen {
          assert s[0] == y;
        } else {
          assert y in UniqueBy(s[1..], key, seen');
          var i :| 0 <= i < |s[1..]| && s[1..][i] == y && forall k :: 0 <= k < i ==> key(s[1..][k]) != key(y);
          assert key(y) !in seen';
          assert key(s[0]) != key(y);
          assert forall k :: 1 <= k < i + 1 ==> s[k] == s[1..][k - 1];
        }
      }
    }
  }

  /** `a` is `b` with some elements left out, the others in their order. */
  predicate Subsequence<T(==)>(a: seq<T>, b: seq<T>)
    decreases |b|
  {
    if a == [] then true
    else if b == [] then false
    else (a[0] == b[0] && Subsequence(a[1..], b[1..])) || Subsequence(a, b[1..])
  }

  /** The kept elements keep their order in `s`. */
  lemma {:induction false} UniqueBySubsequence<T, K>(s: seq<T>, key: T -> K, seen: set<K>)
    ensures Subsequence(UniqueBy(s, key, seen), s)
  {
    if s != [] {
      var r := UniqueBy(s, key, seen);
      if key(s[0]) in seen {
        UniqueBySubsequence(s[1..], key, seen);
      } else {
        UniqueBySubsequence(s[1..], key, seen + {key(s[0])});
        assert r[0] == s[0] && r[1..] == UniqueBy(s[1..], key, seen + {key(s[0])});
      }
    }
  }

  /** The elements a filter keeps keep their order in `s`. */
  lemma {:induction false} FilterSubsequence<T>(s: seq<T>, keep: T -> bool)
    ensures Subsequence(Filter(s, keep), s)
  {
    if s != [] {
      var r := Filter(s, keep);
      FilterSubsequence(s[1..], keep);
      if keep(s[0]) {
        assert r[0] == s[0] && r[1..] == Filter(s[1..], keep);
      } else {
        assert r == Filter(s[1..], keep);
        SubsequenceOfTail(r, s);
      }
    }
  }

  /** A subsequence of the tail is one of the whole. */
  lemma {:induction false} SubsequenceOfTail<T>(a: seq<T>, b: seq<T>)
    requires b != [] && Subsequence(a, b[1..])
    ensures Subsequence(a, b)
  {
  }

  /** Every element of `s` has its key seen before or kept. */
  lemma {:induction false} UniqueByCovers<T, K>(s: seq<T>, key: T -> K, seen: set<K>)
    ensures forall x :: x in s ==> key(x) in seen || exists y :: y in UniqueBy(s, key, seen) && key(y) == key(x)
  {
    if s != [] {
      var x := s[0];
      assert forall z :: z in s ==> z == x || z in s[1..];
      if key(x) in seen {
        UniqueByCovers(s[1..], key, seen);
      } else {
        UniqueByCovers(s[1..], key, seen + {key(x)});
        assert x in UniqueBy(s, key, seen);
      }
    }
  }

  /** Keys already distinct and unseen keep every element. */
  lemma {:induction false} UniqueByOfUnique<T, K>(s: seq<T>, key: T -> K, seen: set<K>)
    requires forall x :: x in s ==> key(x) !in seen
    requires forall i, j :: 0 <= i < j < |s| ==> key(s[i]) != key(s[j])
    ensures UniqueBy(s, key, seen) == s
  {
    if s != [] {
      var x, rest := s[0], s[1..];
      var seen' := seen + {key(x)};
      assert key(x) !in seen by {
        assert x in s;
      }
      forall y | y in rest ensures key(y) !in seen' {
        var j :| 0 <= j < |rest| && rest[j] == y;
        assert s[j + 1] == y;
        assert y in s;
      }
      forall i, j | 0 <= i < j < |rest| ensures key(rest[i]) != key(rest[j]) {
        assert rest[i] == s[i + 1] && rest[j] == s[j + 1];
      }
      UniqueByOfUnique(rest, key, seen');
      assert UniqueBy(s, key, seen) == [x] + UniqueBy(rest, key, seen');
      assert s == [x] + rest;
    }
  }

  /** Deduplicating twice is deduplicating once. */
  lemma {:induction false} UniqueByIdempotent<T, K>(s: seq<T>, key: T -> K)
    ensures UniqueBy(UniqueBy(s, key, {}), key, {}) == UniqueBy(s, key, {})
  {
    UniqueByFrom(s, key, {});
    UniqueByDistinct(s, key, {});
    UniqueByOfUnique(UniqueBy(s, key, {}), key, {});
  }

  /** The union of `f(x)` over the elements of `s`, built from the front,
      as a loop adding to a set does. */
  function UnionMap<T, U>(s: seq<T>, f: T -> set<U>): set<U>
  {
    if s == [] then {} else UnionMap(s[..|s| - 1], f) + f(s[|s| - 1])
  }

  /** An element is in the union exactly when some `f(s[i])` holds it. */
  lemma {:induction false} UnionMapSpec<T, U>(s: seq<T>, f: T -> set<U>)
    ensures forall u :: u in UnionMap(s, f) ==> exists i :: 0 <= i < |s| && u in f(s[i])
    ensures forall u, i :: 0 <= i < |s| && u in f(s[i]) ==> u in UnionMap(s, f)
  {
    if s != [] {
      var init := s[..|s| - 1];
      UnionMapSpec(init, f);
      forall u | u in UnionMap(s, f)
        ensures exists i :: 0 <= i < |s| && u in f(s[i])
      {
        if u in UnionMap(init, f) {
          var i :| 0 <= i < |init| && u in f(init[i]);
          assert init[i] == s[i];
        } else {
          assert u in f(s[|s| - 1]);
        }
      }
      forall u, i | 0 <= i < |s| && u in f(s[i])
        ensures u in UnionMap(s, f)
      {
        if i < |s| - 1 {
          assert init[i] == s[i];
        }
      }
    }
  }

  lemma {:induction false} UnionMapStep<T, U>(s: seq<T>, f: T -> set<U>, i: nat)
    requires i < |s|
    ensures UnionMap(s[..i + 1], f) == UnionMap(s[..i], f) + f(s[i])
  {
    assert s[..i + 1][..i] == s[..i];
  }
}
