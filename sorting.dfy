/** Python's `sorted(xs, key=k)`: a stable sort. It is modelled once, as an
    insertion sort over a "key(a) <= key(b)" relation, and proved to be a
    permutation, ordered and stable; the key orders the scheduler uses
    (integer pairs and Python's string order) are proved total preorders. */
module Sorting {
  import opened Basics

  /** `le` is total and transitive: the order `key(a) <= key(b)` of some key. */
  ghost predicate TotalPreorder<T(!new)>(le: (T, T) -> bool) {
    (forall a, b :: le(a, b) || le(b, a))
    && (forall a, b, c :: le(a, b) && le(b, c) ==> le(a, c))
  }

  ghost predicate Sorted<T(!new)>(s: seq<T>, le: (T, T) -> bool) {
    forall i, j :: 0 <= i < j < |s| ==> le(s[i], s[j])
  }

  /** Inserts `x` in front of the first element it is not above. */
  function Insert<T(!new)>(x: T, s: seq<T>, le: (T, T) -> bool): (r: seq<T>)
    ensures |r| == |s| + 1
    ensures multiset(r) == multiset(s) + multiset{x}
  {
    if s == [] || le(x, s[0]) then [x] + s
    else
      assert s == [s[0]] + s[1..];
      [s[0]] + Insert(x, s[1..], le)
  }

  /** `sorted(s, key=...)`, where `le(a, b)` stands for `key(a) <= key(b)`. */
  function SortStable<T(!new)>(s: seq<T>, le: (T, T) -> bool): (r: seq<T>)
    ensures |r| == |s|
    ensures multiset(r) == multiset(s)
  {
    if s == [] then []
    else
      assert s == [s[0]] + s[1..];
      Insert(s[0], SortStable(s[1..], le), le)
  }

  lemma {:induction false} InsertSorted<T(!new)>(x: T, s: seq<T>, le: (T, T) -> bool)
    requires TotalPreorder(le) && Sorted(s, le)
    ensures Sorted(Insert(x, s, le), le)
  {
    if s == [] || le(x, s[0]) {
      var r := [x] + s;
      forall i, j | 0 <= i < j < |r| ensures le(r[i], r[j]) {
        if i == 0 {
          assert r[j] == s[j - 1];
          if j > 1 { assert le(s[0], s[j - 1]); }
        } else {
          assert r[i] == s[i - 1] && r[j] == s[j - 1];
        }
      }
    } else {
      var tail := Insert(x, s[1..], le);
      InsertSorted(x, s[1..], le);
      var r := [s[0]] + tail;
      assert le(s[0], x);
      forall j | 1 <= j < |r| ensures le(s[0], r[j]) {
        assert r[j] == tail[j - 1];
        assert tail[j - 1] in multiset(tail);
        assert r[j] == x || r[j] in multiset(s[1..]);
        if r[j] != x {
          var k :| 0 <= k < |s[1..]| && s[1..][k] == r[j];
          assert s[k + 1] == r[j];
        }
      }
      forall i, j | 0 <= i < j < |r| ensures le(r[i], r[j]) {
        if i > 0 {
          assert r[i] == tail[i - 1] && r[j] == tail[j - 1];
        }
      }
    }
  }

  /** The result of `sorted` is in non-decreasing key order. */
  lemma {:induction false} SortStableSorted<T(!new)>(s: seq<T>, le: (T, T) -> bool)
    requires TotalPreorder(le)
    ensures Sorted(SortStable(s, le), le)
  {
    if s != [] {
      SortStableSorted(s[1..], le);
      InsertSorted(s[0], SortStable(s[1..], le), le);
    }
  }

  /** Two elements have equal keys. */
  ghost predicate Equivalent<T(!new)>(le: (T, T) -> bool, a: T, b: T) {
    le(a, b) && le(b, a)
  }

  lemma {:induction false} InsertFilterEquivalent<T(!new)>(x: T, s: seq<T>, le: (T, T) -> bool, e: T)
    requires TotalPreorder(le) && Sorted(s, le)
    ensures Filter(Insert(x, s, le), y => Equivalent(le, y, e))
         == Filter([x], y => Equivalent(le, y, e)) + Filter(s, y => Equivalent(le, y, e))
  {
    var p := y => Equivalent(le, y, e);
    if s == [] || le(x, s[0]) {
      FilterAppend([x], s, p);
    } else {
      InsertFilterEquivalent(x, s[1..], le, e);
      assert s == [s[0]] + s[1..];
      FilterAppend([s[0]], s[1..], p);
      FilterAppend([s[0]], Insert(x, s[1..], le), p);
      assert !(p(x) && p(s[0]));
    }
  }

  /** Stability: the elements of any one key appear in the result in the
      order they had in the input. */
  lemma {:induction false} SortStableStable<T(!new)>(s: seq<T>, le: (T, T) -> bool, e: T)
    requires TotalPreorder(le)
    ensures Filter(SortStable(s, le), y => Equivalent(le, y, e)) == Filter(s, y => Equivalent(le, y, e))
  {
    if s != [] {
      var p := y => Equivalent(le, y, e);
      SortStableStable(s[1..], le, e);
      SortStableSorted(s[1..], le);
      InsertFilterEquivalent(s[0], SortStable(s[1..], le), le, e);
      assert s == [s[0]] + s[1..];
      FilterAppend([s[0]], s[1..], p);
    }
  }

  lemma {:induction false} SumInsert<T(!new)>(x: T, s: seq<T>, le: (T, T) -> bool, f: T -> int)
    ensures Sum(Insert(x, s, le), f) == f(x) + Sum(s, f)
  {
    if s != [] && !le(x, s[0]) {
      SumInsert(x, s[1..], le, f);
    }
  }

  /** Sorting does not change a sum over the elements. */
  lemma {:induction false} SumSortStable<T(!new)>(s: seq<T>, le: (T, T) -> bool, f: T -> int)
    ensures Sum(SortStable(s, le), f) == Sum(s, f)
  {
    if s != [] {
      SumSortStable(s[1..], le, f);
      SumInsert(s[0], SortStable(s[1..], le), le, f);
    }
  }

  /** `key(a) <= key(b)` for an integer key. */
  function ByIntKey<T(!new)>(key: T -> int): (r: (T, T) -> bool)
    ensures forall a, b :: r(a, b) == (key(a) <= key(b))
  {
    (a, b) => key(a) <= key(b)
  }

  lemma ByIntKeyTotalPreorder<T(!new)>(key: T -> int)
    ensures TotalPreorder(ByIntKey(key))
  {
  }

  /** `key(a) <= key(b)` for a key made of two integers, compared as a tuple. */
  predicate PairLe(a: (int, int), b: (int, int)) {
    a.0 < b.0 || (a.0 == b.0 && a.1 <= b.1)
  }

  function ByPairKey<T(!new)>(key: T -> (int, int)): (r: (T, T) -> bool)
    ensures forall a, b :: r(a, b) == PairLe(key(a), key(b))
  {
    (a, b) => PairLe(key(a), key(b))
  }

  lemma ByPairKeyTotalPreorder<T(!new)>(key: T -> (int, int))
    ensures TotalPreorder(ByPairKey(key))
  {
  }

  /** Python's `<=` on strings: lexicographic by code point, a proper prefix first. */
  predicate StrLe(a: string, b: string) {
    a == [] || (b != [] && (a[0] < b[0] || (a[0] == b[0] && StrLe(a[1..], b[1..]))))
  }

  lemma {:induction false} StrLeTotal(a: string, b: string)
    ensures StrLe(a, b) || StrLe(b, a)
  {
    if a != [] && b != [] && a[0] == b[0] {
      StrLeTotal(a[1..], b[1..]);
    }
  }

  lemma {:induction false} StrLeTransitive(a: string, b: string, c: string)
    requires StrLe(a, b) && StrLe(b, c)
    ensures StrLe(a, c)
  {
    if a != [] && b != [] && c != [] && a[0] == b[0] && b[0] == c[0] {
      StrLeTransitive(a[1..], b[1..], c[1..]);
    }
  }

  lemma {:induction false} StrLeAntisymmetric(a: string, b: string)
    requires StrLe(a, b) && StrLe(b, a)
    ensures a == b
  {
    if a != [] && b != [] {
      StrLeAntisymmetric(a[1..], b[1..]);
      assert a == [a[0]] + a[1..] && b == [b[0]] + b[1..];
    }
  }

  /** `key(a) <= key(b)` for a key of a string and an integer. */
  predicate StrIntLe(a: (string, int), b: (string, int)) {
    (StrLe(a.0, b.0) && a.0 != b.0) || (a.0 == b.0 && a.1 <= b.1)
  }

  function ByStrIntKey<T(!new)>(key: T -> (string, int)): (r: (T, T) -> bool)
    ensures forall a, b :: r(a, b) == StrIntLe(key(a), key(b))
  {
    (a, b) => StrIntLe(key(a), key(b))
  }

  lemma ByStrIntKeyTotalPreorder<T(!new)>(key: T -> (string, int))
    ensures TotalPreorder(ByStrIntKey(key))
  {
    var le := ByStrIntKey(key);
    forall a, b ensures le(a, b) || le(b, a) {
      StrLeTotal(key(a).0, key(b).0);
    }
    forall a, b, c | le(a, b) && le(b, c) ensures le(a, c) {
      var ka, kb, kc := key(a), key(b), key(c);
      if ka.0 != kb.0 && kb.0 != kc.0 {
        StrLeTransitive(ka.0, kb.0, kc.0);
        if ka.0 == kc.0 { StrLeAntisymmetric(ka.0, kb.0); }
      }
    }
  }
}
