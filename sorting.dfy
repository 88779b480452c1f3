/**
 * Sequence utilities shared by the model: a stable insertion sort under a
 * total preorder (the behaviour of Python's `list.sort` / `sorted` with a
 * key), subsequences, filtering and flattening.
 */
module Sorting {

  /** `le` is a total preorder: any two elements are comparable and it is transitive. */
  ghost predicate TotalPreorder<T(!new)>(le: (T, T) -> bool) {
    (forall a, b :: le(a, b) || le(b, a)) &&
    (forall a, b, c :: le(a, b) && le(b, c) ==> le(a, c))
  }

  predicate SortedBy<T>(s: seq<T>, le: (T, T) -> bool) {
    forall i, j :: 0 <= i < j < |s| ==> le(s[i], s[j])
  }

  /** Inserts `x` before the first element it may precede, so `x` stays ahead of its equals. */
  function Insert<T>(x: T, s: seq<T>, le: (T, T) -> bool): (r: seq<T>)
    ensures |r| == |s| + 1
    ensures multiset(r) == multiset(s) + multiset{x}
  {
    if s == [] || le(x, s[0]) then [x] + s
    else
      assert s == [s[0]] + s[1..];
      [s[0]] + Insert(x, s[1..], le)
  }

  /** Stable insertion sort: earlier elements stay ahead of later equal ones. */
  function SortBy<T>(s: seq<T>, le: (T, T) -> bool): (r: seq<T>)
    ensures |r| == |s|
    ensures multiset(r) == multiset(s)
  {
    if s == [] then []
    else
      assert s == [s[0]] + s[1..];
      Insert(s[0], SortBy(s[1..], le), le)
  }

  lemma {:induction false} InsertSorted<T(!new)>(x: T, s: seq<T>, le: (T, T) -> bool)
    requires TotalPreorder(le) && SortedBy(s, le)
    ensures SortedBy(Insert(x, s, le), le)
  {
    if s == [] || le(x, s[0]) {
    } else {
      InsertSorted(x, s[1..], le);
      var r := Insert(x, s, le);
      var t := Insert(x, s[1..], le);
      assert r == [s[0]] + t;
      assert multiset(t) == multiset(s[1..]) + multiset{x};
      forall k | 0 <= k < |t| ensures le(s[0], t[k]) {
        assert t[k] in multiset(t);
        if t[k] == x {
        } else {
          assert t[k] in multiset(s[1..]);
          var m :| 0 <= m < |s[1..]| && s[1..][m] == t[k];
          assert s[m + 1] == t[k];
        }
      }
    }
  }

  lemma {:induction false} SortBySorted<T(!new)>(s: seq<T>, le: (T, T) -> bool)
    requires TotalPreorder(le)
    ensures SortedBy(SortBy(s, le), le)
  {
    if s != [] {
      SortBySorted(s[1..], le);
      InsertSorted(s[0], SortBy(s[1..], le), le);
    }
  }

  /**
   * Inserting keeps the relative order of a class of mutually equal
   * elements: `x` lands ahead of every element of its class.
   */
  lemma {:induction false} InsertStable<T>(x: T, s: seq<T>, le: (T, T) -> bool, p: T -> bool)
    requires forall a, b :: p(a) && p(b) ==> le(a, b)
    ensures Filter(Insert(x, s, le), p) == Filter([x] + s, p)
  {
    if s == [] || le(x, s[0]) {
    } else {
      InsertStable(x, s[1..], le, p);
      assert ([s[0]] + Insert(x, s[1..], le))[1..] == Insert(x, s[1..], le);
      assert ([x] + s[1..])[1..] == s[1..];
      assert ([x] + s)[1..] == s;
      assert ([s[0]] + ([x] + s[1..]))[1..] == [x] + s[1..];
    }
  }

  /**
   * The insertion sort is stable: the elements of any class of mutually
   * equal elements come out in their input order.
   */
  lemma {:induction false} SortByStable<T>(s: seq<T>, le: (T, T) -> bool, p: T -> bool)
    requires forall a, b :: p(a) && p(b) ==> le(a, b)
    ensures Filter(SortBy(s, le), p) == Filter(s, p)
  {
    if s != [] {
      SortByStable(s[1..], le, p);
      InsertStable(s[0], SortBy(s[1..], le), le, p);
      assert ([s[0]] + SortBy(s[1..], le))[1..] == SortBy(s[1..], le);
      assert s == [s[0]] + s[1..];
    }
  }

  /** Sorting an already sorted sequence leaves it as it is. */
  lemma {:induction false} SortByOfSorted<T>(s: seq<T>, le: (T, T) -> bool)
    requires SortedBy(s, le)
    ensures SortBy(s, le) == s
  {
    if s != [] {
      SortByOfSorted(s[1..], le);
      if |s| > 1 {
        assert le(s[0], s[1]);
        assert s[1..][0] == s[1];
      }
      assert s == [s[0]] + s[1..];
    }
  }

  /** `a` can be obtained from `b` by deleting elements. */
  predicate IsSubseq<T(==)>(a: seq<T>, b: seq<T>)
    decreases |b|
  {
    a == [] || (b != [] && ((a[0] == b[0] && IsSubseq(a[1..], b[1..])) || IsSubseq(a, b[1..])))
  }

  lemma {:induction false} SubseqTrans<T>(a: seq<T>, b: seq<T>, c: seq<T>)
    requires IsSubseq(a, b) && IsSubseq(b, c)
    ensures IsSubseq(a, c)
    decreases |c|
  {
    if a != [] {
      if IsSubseq(b, c[1..]) {
        SubseqTrans(a, b, c[1..]);
      } else if a[0] == b[0] && IsSubseq(a[1..], b[1..]) {
        SubseqTrans(a[1..], b[1..], c[1..]);
      } else {
        SubseqTrans(a, b[1..], c[1..]);
      }
    }
  }

  lemma {:induction false} SubseqMembers<T>(a: seq<T>, b: seq<T>)
    requires IsSubseq(a, b)
    ensures forall x :: x in a ==> x in b
    decreases |b|
  {
    if a != [] {
      if a[0] == b[0] && IsSubseq(a[1..], b[1..]) {
        SubseqMembers(a[1..], b[1..]);
        forall x | x in a ensures x in b {
          if x != a[0] {
            assert x in a[1..];
          }
        }
      } else {
        SubseqMembers(a, b[1..]);
      }
    }
  }

  lemma {:induction false} SubseqSorted<T>(a: seq<T>, b: seq<T>, le: (T, T) -> bool)
    requires IsSubseq(a, b) && SortedBy(b, le)
    ensures SortedBy(a, le)
    decreases |b|
  {
    if a != [] {
      if a[0] == b[0] && IsSubseq(a[1..], b[1..]) {
        SubseqSorted(a[1..], b[1..], le);
        SubseqMembers(a[1..], b[1..]);
        forall i, j | 0 <= i < j < |a| ensures le(a[i], a[j]) {
          if i == 0 {
            assert a[j] in a[1..];
            assert a[j] in b[1..];
            var m :| 0 <= m < |b[1..]| && b[1..][m] == a[j];
            assert b[m + 1] == a[j];
          } else {
            assert a[i] == a[1..][i - 1] && a[j] == a[1..][j - 1];
          }
        }
      } else {
        SubseqSorted(a, b[1..], le);
      }
    }
  }

  lemma {:induction false} SubseqRefl<T>(a: seq<T>)
    ensures IsSubseq(a, a)
  {
    if a != [] {
      SubseqRefl(a[1..]);
    }
  }

  /** The elements of `s` that satisfy `p`, in their original order (a list comprehension with `if`). */
  function Filter<T>(s: seq<T>, p: T -> bool): (r: seq<T>)
    ensures |r| <= |s|
    ensures forall i :: 0 <= i < |r| ==> r[i] in s && p(r[i])
    ensures forall i :: 0 <= i < |s| && p(s[i]) ==> s[i] in r
    ensures IsSubseq(r, s)
  {
    if s == [] then []
    else
      assert s == [s[0]] + s[1..];
      var rest := Filter(s[1..], p);
      if p(s[0]) then [s[0]] + rest else rest
  }

  /** Each element transformed, in order (a list comprehension without a test). */
  function MapEach<A, B>(s: seq<A>, f: A -> B): (r: seq<B>)
    ensures |r| == |s|
    ensures forall i :: 0 <= i < |s| ==> r[i] == f(s[i])
  {
    seq(|s|, i requires 0 <= i < |s| => f(s[i]))
  }

  lemma MapEachSnoc<A, B>(s: seq<A>, x: A, f: A -> B)
    ensures MapEach(s + [x], f) == MapEach(s, f) + [f(x)]
  {
    assert forall i :: 0 <= i < |s| ==> MapEach(s + [x], f)[i] == (MapEach(s, f) + [f(x)])[i];
  }

  /** Mapping the identity changes nothing. */
  lemma MapEachIdentity<A>(s: seq<A>, f: A -> A)
    requires forall x :: f(x) == x
    ensures MapEach(s, f) == s
  {
  }

  /**
   * The loop `for x in s: if p(x): out.append(f(x))`: the elements that pass
   * the test, each transformed, in their order.
   */
  method KeepAndMap<A, B>(s: seq<A>, p: A -> bool, f: A -> B) returns (out: seq<B>)
    ensures out == MapEach(Filter(s, p), f)
  {
    out := [];
    var k := 0;
    while k < |s|
      invariant 0 <= k <= |s|
      invariant out == MapEach(Filter(s[..k], p), f)
    {
      FilterSnoc(s[..k], s[k], p);
      PrefixSnoc(s, k);
      if p(s[k]) {
        MapEachSnoc(Filter(s[..k], p), s[k], f);
        out := out + [f(s[k])];
      }
      k := k + 1;
    }
    assert s[..k] == s;
  }

  /** Sorting a list and then filtering it keeps exactly the passing elements, in sorted order. */
  lemma SortThenFilter<T(!new)>(s: seq<T>, le: (T, T) -> bool, p: T -> bool)
    requires TotalPreorder(le)
    ensures forall i :: 0 <= i < |Filter(SortBy(s, le), p)| ==> Filter(SortBy(s, le), p)[i] in s
    ensures forall x :: x in s && p(x) ==> x in Filter(SortBy(s, le), p)
    ensures SortedBy(Filter(SortBy(s, le), p), le)
  {
    var sorted := SortBy(s, le);
    var r := Filter(sorted, p);
    SortBySorted(s, le);
    SubseqSorted(r, sorted, le);
    forall i | 0 <= i < |r| ensures r[i] in s {
      assert r[i] in sorted;
      assert r[i] in multiset(sorted);
    }
    forall x | x in s && p(x) ensures x in r {
      assert x in multiset(s);
      assert x in sorted;
    }
  }

  /** A prefix grows by the next element (stated generically, so it is cheap to use on lists of strings). */
  lemma PrefixSnoc<T>(s: seq<T>, n: nat)
    requires n < |s|
    ensures s[..n] + [s[n]] == s[..n + 1]
  {
  }

  lemma TakeConcat<T>(s: seq<T>, i: nat, j: nat)
    requires i <= j <= |s|
    ensures s[..i] + s[i..j] == s[..j]
  {
  }

  lemma TakeAll<T>(s: seq<T>)
    ensures s[..|s|] == s
  {
  }

  /** Filtering a list with one more element at the end. */
  lemma {:induction false} FilterSnoc<T>(s: seq<T>, x: T, p: T -> bool)
    ensures Filter(s + [x], p) == Filter(s, p) + (if p(x) then [x] else [])
  {
    if s == [] {
      assert [x][1..] == [];
    } else {
      assert (s + [x])[1..] == s[1..] + [x];
      FilterSnoc(s[1..], x, p);
    }
  }

  /** Filtering two lists put together is putting their filterings together. */
  lemma {:induction false} FilterAppend<T>(a: seq<T>, b: seq<T>, p: T -> bool)
    ensures Filter(a + b, p) == Filter(a, p) + Filter(b, p)
  {
    if a == [] {
      assert a + b == b;
    } else {
      assert (a + b)[1..] == a[1..] + b;
      FilterAppend(a[1..], b, p);
    }
  }

  /** Filtering a prefix one element longer. */
  lemma FilterPrefixSnoc<T>(s: seq<T>, p: T -> bool, i: nat)
    requires i < |s|
    ensures Filter(s[..i + 1], p) == Filter(s[..i], p) + (if p(s[i]) then [s[i]] else [])
  {
    FilterSnoc(s[..i], s[i], p);
    assert s[..i + 1] == s[..i] + [s[i]];
  }

  /** Filtering and then mapping a prefix one element longer. */
  lemma MapFilterPrefixSnoc<A, B>(s: seq<A>, p: A -> bool, f: A -> B, i: nat)
    requires i < |s|
    ensures MapEach(Filter(s[..i + 1], p), f) == MapEach(Filter(s[..i], p), f) + (if p(s[i]) then [f(s[i])] else [])
  {
    FilterPrefixSnoc(s, p, i);
    var kept := Filter(s[..i], p);
    if p(s[i]) {
      MapEachSnoc(kept, s[i], f);
    } else {
      assert kept + [] == kept;
    }
  }

  /**
   * What filtering then mapping keeps: the image of every element that
   * passes, and only images of elements that pass.
   */
  lemma MapFilterMembers<A, B>(s: seq<A>, p: A -> bool, f: A -> B)
    ensures forall i :: 0 <= i < |s| && p(s[i]) ==> f(s[i]) in MapEach(Filter(s, p), f)
    ensures forall y :: y in MapEach(Filter(s, p), f) ==> exists i :: 0 <= i < |s| && p(s[i]) && y == f(s[i])
  {
    var kept := Filter(s, p);
    var image := MapEach(kept, f);
    forall i | 0 <= i < |s| && p(s[i]) ensures f(s[i]) in image {
      var k :| 0 <= k < |kept| && kept[k] == s[i];
      assert image[k] == f(s[i]);
    }
    forall y | y in image ensures exists i :: 0 <= i < |s| && p(s[i]) && y == f(s[i]) {
      var k :| 0 <= k < |image| && image[k] == y;
      assert kept[k] in s && p(kept[k]);
      var i :| 0 <= i < |s| && s[i] == kept[k];
    }
  }

  /** Nothing passes the filter exactly when no element satisfies the test. */
  lemma {:induction false} FilterEmpty<T>(s: seq<T>, p: T -> bool)
    ensures Filter(s, p) == [] <==> forall i :: 0 <= i < |s| ==> !p(s[i])
  {
    if s != [] {
      FilterEmpty(s[1..], p);
      assert forall i :: 1 <= i < |s| ==> s[i] == s[1..][i - 1];
    }
  }

  /** The distinct elements of `s` in order of first appearance (what a dict filled while scanning `s` lists). */
  function FirstSeen<T(==)>(s: seq<T>): (r: seq<T>)
    ensures |r| <= |s|
    ensures forall i :: 0 <= i < |r| ==> r[i] in s
  {
    if s == [] then []
    else
      var n := |s| - 1;
      var prev := FirstSeen(s[..n]);
      assert forall i :: 0 <= i < |prev| ==> prev[i] in s by {
        forall i | 0 <= i < |prev| ensures prev[i] in s {
          var k :| 0 <= k < n && s[..n][k] == prev[i];
          assert s[k] == prev[i];
        }
      }
      if s[n] in prev then prev else prev + [s[n]]
  }

  /** FirstSeen holds no element twice, and holds exactly the elements of `s`. */
  lemma {:induction false} FirstSeenSpec<T>(s: seq<T>)
    ensures forall i, j :: 0 <= i < j < |FirstSeen(s)| ==> FirstSeen(s)[i] != FirstSeen(s)[j]
    ensures forall i :: 0 <= i < |FirstSeen(s)| ==> FirstSeen(s)[i] in s
    ensures forall i :: 0 <= i < |s| ==> s[i] in FirstSeen(s)
  {
    if s != [] {
      var n := |s| - 1;
      FirstSeenSpec(s[..n]);
      assert forall i :: 0 <= i < n ==> s[i] == s[..n][i];
    }
  }

  lemma TakeSnoc<T>(s: seq<T>, x: T)
    ensures (s + [x])[..|s|] == s && (s + [x])[|s|] == x && |s + [x]| == |s| + 1
  {
  }

  /** Appending a new element adds it at the end of FirstSeen; appending a known one changes nothing. */
  lemma FirstSeenSnoc<T>(s: seq<T>, x: T)
    ensures FirstSeen(s + [x]) == if x in s then FirstSeen(s) else FirstSeen(s) + [x]
  {
    TakeSnoc(s, x);
    FirstSeenSpec(s);
  }
  /**
   * The dictionary a scan of `s` fills when it numbers each new element
   * with the count so far plus one: each element to its 1-based first-seen
   * position.
   */
  function FirstSeenIds<T(==)>(s: seq<T>): (m: map<T, int>)
  {
    if s == [] then map[]
    else
      var n := |s| - 1;
      var prev := FirstSeenIds(s[..n]);
      if s[n] in prev then prev else prev[s[n] := |FirstSeen(s[..n])| + 1]
  }

  /** The dictionary's keys are exactly the elements seen. */
  lemma {:induction false} FirstSeenIdsKeys<T>(s: seq<T>)
    ensures forall x :: x in FirstSeenIds(s) <==> x in s
  {
    if s != [] {
      var n := |s| - 1;
      FirstSeenIdsKeys(s[..n]);
      assert s == s[..n] + [s[n]];
    }
  }

  /** The i-th element in first-seen order is numbered i + 1. */
  lemma {:induction false} FirstSeenIdsAgree<T>(s: seq<T>)
    ensures forall i :: 0 <= i < |FirstSeen(s)| ==>
      FirstSeen(s)[i] in FirstSeenIds(s) && FirstSeenIds(s)[FirstSeen(s)[i]] == i + 1
  {
    if s != [] {
      var n := |s| - 1;
      var prev := s[..n];
      FirstSeenIdsAgree(prev);
      FirstSeenIdsKeys(prev);
      TakeSnoc(prev, s[n]);
      assert s == prev + [s[n]];
      FirstSeenSnoc(prev, s[n]);
    }
  }

  lemma {:induction false} FirstSeenIdsSize<T>(s: seq<T>)
    ensures |FirstSeenIds(s)| == |FirstSeen(s)|
  {
    if s != [] {
      var n := |s| - 1;
      var prev := s[..n];
      FirstSeenIdsSize(prev);
      FirstSeenIdsKeys(prev);
      assert s == prev + [s[n]];
      FirstSeenSnoc(prev, s[n]);
    }
  }

  /** A new element gets the next number and joins the first-seen order at the end. */
  lemma FirstSeenIdsNew<T>(s: seq<T>, x: T)
    requires x !in FirstSeenIds(s)
    ensures FirstSeenIds(s + [x]) == FirstSeenIds(s)[x := |FirstSeenIds(s)| + 1]
    ensures FirstSeen(s + [x]) == FirstSeen(s) + [x]
  {
    var t := s + [x];
    TakeSnoc(s, x);
    assert x !in s by { FirstSeenIdsKeys(s); }
    assert FirstSeenIds(t) == FirstSeenIds(s)[x := |FirstSeen(s)| + 1];
    FirstSeenIdsSize(s);
    FirstSeenSnoc(s, x);
  }

  /** An element seen before changes neither the dictionary nor the order. */
  lemma FirstSeenIdsKnown<T>(s: seq<T>, x: T)
    requires x in FirstSeenIds(s)
    ensures FirstSeenIds(s + [x]) == FirstSeenIds(s) && FirstSeen(s + [x]) == FirstSeen(s)
  {
    var t := s + [x];
    TakeSnoc(s, x);
    assert x in s by { FirstSeenIdsKeys(s); }
    assert FirstSeenIds(t) == FirstSeenIds(s);
    FirstSeenSnoc(s, x);
  }

  /** One step of the scan: a new element is numbered next and appended to the order; a known one changes nothing. */
  lemma FirstSeenStep<T>(s: seq<T>, x: T, t: seq<T>)
    requires t == s + [x]
    ensures x !in FirstSeenIds(s) ==>
      FirstSeenIds(t) == FirstSeenIds(s)[x := |FirstSeenIds(s)| + 1] && FirstSeen(t) == FirstSeen(s) + [x]
    ensures x in FirstSeenIds(s) ==> FirstSeenIds(t) == FirstSeenIds(s) && FirstSeen(t) == FirstSeen(s)
  {
    if x in FirstSeenIds(s) {
      FirstSeenIdsKnown(s, x);
    } else {
      FirstSeenIdsNew(s, x);
    }
  }

  /** Numbers given to earlier elements do not change when the scan goes on. */
  lemma FirstSeenIdsStable<T>(s: seq<T>, x: T, y: T)
    requires y in FirstSeenIds(s)
    ensures y in FirstSeenIds(s + [x]) && FirstSeenIds(s + [x])[y] == FirstSeenIds(s)[y]
  {
    if x in FirstSeenIds(s) {
      FirstSeenIdsKnown(s, x);
    } else {
      FirstSeenIdsNew(s, x);
    }
  }

  /** The number a first-seen dictionary gives an element is one more than its place in first-seen order. */
  lemma FirstSeenIdsPlace<T>(s: seq<T>, x: T)
    requires x in s
    ensures x in FirstSeenIds(s) && 1 <= FirstSeenIds(s)[x] <= |FirstSeen(s)|
    ensures FirstSeen(s)[FirstSeenIds(s)[x] - 1] == x
  {
    var order := FirstSeen(s);
    assert x in order by {
      var j :| 0 <= j < |s| && s[j] == x;
      FirstSeenSpec(s);
    }
    var i :| 0 <= i < |order| && order[i] == x;
    FirstSeenIdsAgree(s);
    assert FirstSeenIds(s)[order[i]] == i + 1;
  }

  /** Every element already scanned keeps its number when one more element is scanned. */
  lemma FirstSeenIdsStableAll<T>(s: seq<T>, x: T)
    ensures forall t :: 0 <= t < |s| ==>
      s[t] in FirstSeenIds(s) && s[t] in FirstSeenIds(s + [x]) && FirstSeenIds(s + [x])[s[t]] == FirstSeenIds(s)[s[t]]
  {
    FirstSeenIdsKeys(s);
    forall t | 0 <= t < |s|
      ensures s[t] in FirstSeenIds(s + [x]) && FirstSeenIds(s + [x])[s[t]] == FirstSeenIds(s)[s[t]]
    {
      FirstSeenIdsStable(s, x, s[t]);
    }
  }


  /** Position of the first `x` in `s`. */
  function FirstIndex<T(==)>(s: seq<T>, x: T): (i: nat)
    requires x in s
    ensures i < |s| && s[i] == x && x !in s[..i]
  {
    if s[0] == x then 0
    else
      assert x in s[1..];
      var k := FirstIndex(s[1..], x);
      assert s[..k + 1] == [s[0]] + s[1..][..k];
      k + 1
  }

  /** FirstSeen lists elements in the order of their first occurrence. */
  lemma {:induction false} FirstSeenOrder<T>(s: seq<T>, a: nat, b: nat)
    requires a < b < |FirstSeen(s)|
    ensures FirstIndex(s, FirstSeen(s)[a]) < FirstIndex(s, FirstSeen(s)[b])
  {
    var n := |s| - 1;
    var prev := FirstSeen(s[..n]);
    var r := FirstSeen(s);
    FirstSeenSpec(s[..n]);
    FirstIndexPrefix(s, n, r[a]);
    if b < |prev| {
      assert r[a] == prev[a] && r[b] == prev[b];
      FirstSeenOrder(s[..n], a, b);
      FirstIndexPrefix(s, n, r[b]);
    } else {
      assert r[b] == s[n] && s[n] !in s[..n];
      assert FirstIndex(s, r[b]) == n;
    }
  }

  /** Appending one element keeps the k-th element in order of first appearance, and where it first occurs. */
  lemma FirstSeenKept<T>(s: seq<T>, y: T, k: nat)
    requires k < |FirstSeen(s)|
    ensures k < |FirstSeen(s + [y])| && FirstSeen(s + [y])[k] == FirstSeen(s)[k]
    ensures FirstSeen(s)[k] in s && FirstIndex(s + [y], FirstSeen(s)[k]) == FirstIndex(s, FirstSeen(s)[k])
  {
    TakeSnoc(s, y);
    FirstSeenSnoc(s, y);
    FirstSeenSpec(s);
    FirstIndexPrefix(s + [y], |s|, FirstSeen(s)[k]);
  }

  /** Appending after the first occurrence does not move it. */
  lemma FirstIndexPrefix<T>(s: seq<T>, n: nat, x: T)
    requires n <= |s| && x in s[..n]
    ensures FirstIndex(s, x) == FirstIndex(s[..n], x)
  {
    var i := FirstIndex(s[..n], x);
    var j := FirstIndex(s, x);
    assert s[..n][..i] == s[..i];
  }

  function Flatten<T>(ss: seq<seq<T>>): (r: seq<T>)
  {
    if ss == [] then [] else ss[0] + Flatten(ss[1..])
  }

  lemma {:induction false} FlattenLength<T>(ss: seq<seq<T>>)
    ensures |Flatten(ss)| == SumLengths(ss)
  {
    if ss != [] {
      FlattenLength(ss[1..]);
    }
  }

  function SumLengths<T>(ss: seq<seq<T>>): nat
  {
    if ss == [] then 0 else |ss[0]| + SumLengths(ss[1..])
  }

  lemma {:induction false} FlattenAppend<T>(ss: seq<seq<T>>, s: seq<T>)
    ensures Flatten(ss + [s]) == Flatten(ss) + s
  {
    if ss == [] {
      assert [s][1..] == [];
    } else {
      assert (ss + [s])[1..] == ss[1..] + [s];
      FlattenAppend(ss[1..], s);
    }
  }

  /** The elements that pass a test and those that fail it add up to the whole list. */
  lemma {:induction false} FilterComplement<T>(s: seq<T>, p: T -> bool, q: T -> bool)
    requires forall x :: q(x) == !p(x)
    ensures |Filter(s, p)| + |Filter(s, q)| == |s|
  {
    if s != [] {
      FilterComplement(s[1..], p, q);
    }
  }

  /** A list whose every element passes the test is its own filter. */
  lemma {:induction false} FilterAll<T>(s: seq<T>, p: T -> bool)
    requires forall i :: 0 <= i < |s| ==> p(s[i])
    ensures Filter(s, p) == s
  {
    if s != [] {
      FilterAll(s[1..], p);
      assert s == [s[0]] + s[1..];
    }
  }

  /** A list without repetitions is its own FirstSeen. */
  lemma {:induction false} FirstSeenDistinct<T>(s: seq<T>)
    requires forall i, j :: 0 <= i < j < |s| ==> s[i] != s[j]
    ensures FirstSeen(s) == s
  {
    if s != [] {
      var n := |s| - 1;
      FirstSeenDistinct(s[..n]);
      assert s[n] !in s[..n];
      assert s[..n] + [s[n]] == s;
    }
  }
}
