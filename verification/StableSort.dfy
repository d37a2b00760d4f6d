/** Python's `sorted`: ascending in a total preorder, and elements that tie keep their order. */
module StableSort {

  function Insert<T>(x: T, s: seq<T>, leq: (T, T) -> bool): (r: seq<T>)
    ensures |r| == |s| + 1
  {
    if s == [] || leq(x, s[0]) then [x] + s
    else [s[0]] + Insert(x, s[1..], leq)
  }

  function Sort<T>(s: seq<T>, leq: (T, T) -> bool): (r: seq<T>)
    ensures |r| == |s|
  {
    if s == [] then [] else Insert(s[0], Sort(s[1..], leq), leq)
  }

  predicate Sorted<T>(s: seq<T>, leq: (T, T) -> bool) {
    forall i, j :: 0 <= i < j < |s| ==> leq(s[i], s[j])
  }

  ghost predicate IsPreorder<T(!new)>(leq: (T, T) -> bool) {
    && (forall a, b :: leq(a, b) || leq(b, a))
    && (forall a, b, c :: leq(a, b) && leq(b, c) ==> leq(a, c))
  }

  lemma {:induction false} InsertMembers<T>(x: T, s: seq<T>, leq: (T, T) -> bool)
    ensures forall y :: y in Insert(x, s, leq) <==> y == x || y in s
    ensures multiset(Insert(x, s, leq)) == multiset([x] + s)
  {
    if s != [] && !leq(x, s[0]) {
      InsertMembers(x, s[1..], leq);
      assert s == [s[0]] + s[1..];
      assert multiset([x] + s[1..]) == multiset{x} + multiset(s[1..]);
    }
  }

  lemma {:induction false} InsertKeepsBound<T>(x: T, s: seq<T>, leq: (T, T) -> bool, low: T)
    requires leq(low, x) && forall i :: 0 <= i < |s| ==> leq(low, s[i])
    ensures forall j :: 0 <= j < |Insert(x, s, leq)| ==> leq(low, Insert(x, s, leq)[j])
  {
    if s != [] && !leq(x, s[0]) {
      InsertKeepsBound(x, s[1..], leq, low);
    }
  }

  lemma {:induction false} InsertSorts<T(!new)>(x: T, s: seq<T>, leq: (T, T) -> bool)
    requires IsPreorder(leq) && Sorted(s, leq)
    ensures Sorted(Insert(x, s, leq), leq)
  {
    if s == [] {
    } else if leq(x, s[0]) {
      forall j | 0 <= j < |s| ensures leq(x, s[j]) {
        assert j > 0 ==> leq(s[0], s[j]);
      }
    } else {
      InsertSorts(x, s[1..], leq);
      InsertKeepsBound(x, s[1..], leq, s[0]);
    }
  }

  lemma {:induction false} SortSorts<T(!new)>(s: seq<T>, leq: (T, T) -> bool)
    requires IsPreorder(leq)
    ensures Sorted(Sort(s, leq), leq)
  {
    if s != [] {
      SortSorts(s[1..], leq);
      InsertSorts(s[0], Sort(s[1..], leq), leq);
    }
  }

  lemma {:induction false} SortIsPermutation<T>(s: seq<T>, leq: (T, T) -> bool)
    ensures multiset(Sort(s, leq)) == multiset(s)
    ensures forall y :: y in Sort(s, leq) <==> y in s
  {
    if s != [] {
      SortIsPermutation(s[1..], leq);
      InsertMembers(s[0], Sort(s[1..], leq), leq);
      assert s == [s[0]] + s[1..];
      assert multiset([s[0]] + Sort(s[1..], leq)) == multiset{s[0]} + multiset(Sort(s[1..], leq));
    }
  }

  /** ## Sorting by an integer key */

  function ByKey<T>(key: T -> int): (T, T) -> bool {
    (a: T, b: T) => key(a) <= key(b)
  }

  /** The elements whose key is `k`, in order. */
  function WithKey<T>(s: seq<T>, key: T -> int, k: int): seq<T> {
    if s == [] then []
    else (if key(s[0]) == k then [s[0]] else []) + WithKey(s[1..], key, k)
  }

  lemma WithKeyCons<T>(x: T, s: seq<T>, key: T -> int, k: int)
    ensures WithKey([x] + s, key, k) == (if key(x) == k then [x] else []) + WithKey(s, key, k)
  {
    assert ([x] + s)[1..] == s;
  }

  lemma {:induction false} InsertIsStable<T>(x: T, s: seq<T>, key: T -> int, k: int)
    ensures WithKey(Insert(x, s, ByKey(key)), key, k) == WithKey([x] + s, key, k)
  {
    if s != [] && key(x) > key(s[0]) {
      var h, t := s[0], s[1..];
      assert s == [h] + t;
      InsertIsStable(x, t, key, k);
      WithKeyCons(h, Insert(x, t, ByKey(key)), key, k);
      WithKeyCons(x, t, key, k);
      WithKeyCons(x, s, key, k);
      WithKeyCons(h, t, key, k);
    }
  }

  /** Elements with equal keys come out in the order they went in. */
  lemma {:induction false} SortIsStable<T>(s: seq<T>, key: T -> int, k: int)
    ensures WithKey(Sort(s, ByKey(key)), key, k) == WithKey(s, key, k)
  {
    if s != [] {
      SortIsStable(s[1..], key, k);
      InsertIsStable(s[0], Sort(s[1..], ByKey(key)), key, k);
      WithKeyCons(s[0], Sort(s[1..], ByKey(key)), key, k);
    }
  }
}
