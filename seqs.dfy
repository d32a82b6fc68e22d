/** `Array.prototype.filter` and the (stable) `Array.prototype.sort` with a
    comparator of the form `key(a) - key(b)`, over sequences. */
module Seqs {

  function Filter<T>(s: seq<T>, p: T -> bool): (r: seq<T>)
    ensures |r| <= |s|
    ensures forall i :: 0 <= i < |r| ==> p(r[i])
    decreases |s|
  {
    if s == [] then []
    else if p(s[0]) then [s[0]] + Filter(s[1..], p)
    else Filter(s[1..], p)
  }

  /** The filter keeps exactly the elements that pass the test. */
  lemma {:induction false} FilterMembers<T>(s: seq<T>, p: T -> bool, x: T)
    ensures x in Filter(s, p) <==> x in s && p(x)
    decreases |s|
  {
    if s != [] {
      FilterMembers(s[1..], p, x);
      assert s == [s[0]] + s[1..];
    }
  }

  ghost predicate SortedBy<T>(s: seq<T>, key: T -> int) {
    forall i, j :: 0 <= i < j < |s| ==> key(s[i]) <= key(s[j])
  }

  /** Puts `x` before the first element whose key is not below its own. */
  function Insert<T>(x: T, s: seq<T>, key: T -> int): (r: seq<T>)
    ensures |r| == |s| + 1
    decreases |s|
  {
    if s == [] || key(x) <= key(s[0]) then
      [x] + s
    else
      [s[0]] + Insert(x, s[1..], key)
  }

  lemma {:induction false} InsertPermutes<T>(x: T, s: seq<T>, key: T -> int)
    ensures multiset(Insert(x, s, key)) == multiset(s) + multiset{x}
    decreases |s|
  {
    if s != [] && key(x) > key(s[0]) {
      InsertPermutes(x, s[1..], key);
      assert s == [s[0]] + s[1..];
    }
  }

  lemma {:induction false} InsertSorted<T>(x: T, s: seq<T>, key: T -> int)
    requires SortedBy(s, key)
    ensures SortedBy(Insert(x, s, key), key)
    decreases |s|
  {
    if s != [] && key(x) > key(s[0]) {
      InsertSorted(x, s[1..], key);
      InsertKeepsLowerBound(x, s[1..], key, key(s[0]));
      ConsSorted(s[0], Insert(x, s[1..], key), key);
    }
  }

  /** Inserting an element no smaller than a bound into a sequence above that bound stays above it. */
  lemma {:induction false} InsertKeepsLowerBound<T>(x: T, s: seq<T>, key: T -> int, lo: int)
    requires key(x) >= lo
    requires forall i :: 0 <= i < |s| ==> key(s[i]) >= lo
    ensures forall j :: 0 <= j < |s| + 1 ==> key(Insert(x, s, key)[j]) >= lo
    decreases |s|
  {
    if s != [] && key(x) > key(s[0]) {
      InsertKeepsLowerBound(x, s[1..], key, lo);
      var t := Insert(x, s[1..], key);
      assert Insert(x, s, key) == [s[0]] + t;
    }
  }

  /** A sorted sequence stays sorted behind an element no greater than any of it. */
  lemma {:induction false} ConsSorted<T>(a: T, t: seq<T>, key: T -> int)
    requires SortedBy(t, key)
    requires forall j :: 0 <= j < |t| ==> key(a) <= key(t[j])
    ensures SortedBy([a] + t, key)
  {
    var r := [a] + t;
    forall i, j | 0 <= i < j < |r| ensures key(r[i]) <= key(r[j]) {
      if i > 0 { assert r[i] == t[i - 1] && r[j] == t[j - 1]; }
      else { assert r[j] == t[j - 1]; }
    }
  }

  /** Stable insertion sort by an integer key. */
  function SortBy<T>(s: seq<T>, key: T -> int): (r: seq<T>)
    ensures |r| == |s|
    decreases |s|
  {
    if s == [] then [] else Insert(s[0], SortBy(s[1..], key), key)
  }

  /** The sort returns a sorted permutation of its input. */
  lemma {:induction false} SortBySortsAndPermutes<T>(s: seq<T>, key: T -> int)
    ensures multiset(SortBy(s, key)) == multiset(s)
    ensures SortedBy(SortBy(s, key), key)
    decreases |s|
  {
    if s != [] {
      SortBySortsAndPermutes(s[1..], key);
      var t := SortBy(s[1..], key);
      InsertSorted(s[0], t, key);
      InsertPermutes(s[0], t, key);
      assert s == [s[0]] + s[1..];
    }
  }

  /** Inserting into a sequence whose elements with smaller keys all come
      first lands `x` right after them. */
  lemma {:induction false} InsertAfterSmaller<T>(x: T, a: seq<T>, b: seq<T>, key: T -> int)
    requires forall i :: 0 <= i < |a| ==> key(a[i]) < key(x)
    requires b == [] || key(x) <= key(b[0])
    ensures Insert(x, a + b, key) == a + [x] + b
    decreases |a|
  {
    if a != [] {
      var ab := a + b;
      assert ab[0] == a[0] && key(x) > key(ab[0]);
      assert ab[1..] == a[1..] + b;
      InsertAfterSmaller(x, a[1..], b, key);
      assert a == [a[0]] + a[1..];
    } else {
      assert a + b == b;
    }
  }

  /** An element of the first class goes to the front of the sequence. */
  lemma {:induction false} InsertFirstClass<T>(x: T, t: seq<T>, key: T -> int)
    requires key(x) == 0
    requires t == [] || key(t[0]) >= 0
    ensures Insert(x, t, key) == [x] + t
  {
  }

  /** An element of the rest class lands after every first-class element. */
  lemma {:induction false} RestClassAfterFirst<T>(x: T, a: seq<T>, b: seq<T>, key: T -> int)
    requires key(x) == 1
    requires forall i :: 0 <= i < |a| ==> key(a[i]) == 0
    requires b == [] || key(b[0]) == 1
    ensures Insert(x, a + b, key) == a + [x] + b
  {
    InsertAfterSmaller(x, a, b, key);
  }

  /** The filter of a concatenation is the concatenation of the filters: with `FilterOne`
      this fixes the filter's output completely, order and repetitions included. */
  lemma {:induction false} FilterAppend<T>(a: seq<T>, b: seq<T>, p: T -> bool)
    ensures Filter(a + b, p) == Filter(a, p) + Filter(b, p)
    decreases |a|
  {
    if a == [] {
      assert a + b == b;
    } else {
      assert (a + b)[1..] == a[1..] + b;
      FilterAppend(a[1..], b, p);
    }
  }

  /** One element is kept exactly when it passes. */
  lemma {:induction false} FilterOne<T>(x: T, p: T -> bool)
    ensures Filter([x], p) == if p(x) then [x] else []
  {
    assert [x][1..] == [];
  }
}
