/**
 * Tuple keys as Python compares them, the stable `sorted(..., key=...)` the
 * index builders use, and `max(..., key=...)`.
 */
module Ranking {

  /** A three-element tuple key; booleans enter as 0 (False) and 1 (True). */
  datatype Key3 = Key3(a: int, b: int, c: int)

  /** Python's lexicographic `<=` on tuples. */
  predicate Le(x: Key3, y: Key3)
  {
    x.a < y.a || (x.a == y.a && (x.b < y.b || (x.b == y.b && x.c <= y.c)))
  }

  predicate Lt(x: Key3, y: Key3) { !Le(y, x) }

  function BoolKey(b: bool): int { if b then 1 else 0 }

  /** A key that orders by every component reversed, which is how `reverse=True` sorts. */
  function Negated(k: Key3): Key3
  {
    Key3(-k.a, -k.b, -k.c)
  }

  lemma NegatedReverses(x: Key3, y: Key3)
    ensures Le(Negated(x), Negated(y)) <==> Le(y, x)
  {
  }

  predicate SortedBy<T>(s: seq<T>, key: T -> Key3)
  {
    forall i, j :: 0 <= i < j < |s| ==> Le(key(s[i]), key(s[j]))
  }

  /**
   * Insert `x` after every element whose key is not greater than its own; applied
   * left to right this keeps equal keys in their input order.
   */
  function Insert<T>(s: seq<T>, x: T, key: T -> Key3): (r: seq<T>)
    requires SortedBy(s, key)
    ensures SortedBy(r, key)
    ensures multiset(r) == multiset(s) + multiset{x}
    ensures |r| == |s| + 1
  {
    if s == [] then [x]
    else if Le(key(s[|s| - 1]), key(x)) then s + [x]
    else
      var last := s[|s| - 1];
      var front := Insert(s[..|s| - 1], x, key);
      assert s == s[..|s| - 1] + [last];
      forall e | e in front ensures Le(key(e), key(last)) {
        assert e in multiset(front);
        if e != x {
          assert e in multiset(s[..|s| - 1]);
          var k :| 0 <= k < |s| - 1 && s[k] == e;
        }
      }
      front + [last]
  }

  /** `sorted(s, key=key)`: a permutation of `s` in non-decreasing key order. */
  function SortByKey<T>(s: seq<T>, key: T -> Key3): (r: seq<T>)
    ensures SortedBy(r, key)
    ensures multiset(r) == multiset(s)
    ensures |r| == |s|
  {
    if s == [] then []
    else
      assert s == s[..|s| - 1] + [s[|s| - 1]];
      Insert(SortByKey(s[..|s| - 1], key), s[|s| - 1], key)
  }

  /** An element appears in the sorted sequence exactly when it appears in the input. */
  lemma SortMembership<T>(s: seq<T>, key: T -> Key3, x: T)
    ensures x in SortByKey(s, key) <==> x in s
  {
    var r := SortByKey(s, key);
    assert x in r <==> x in multiset(r);
    assert x in s <==> x in multiset(s);
  }

  /** The elements of `s` whose key is `k`, in their order in `s`. */
  function WithKey<T>(s: seq<T>, key: T -> Key3, k: Key3): seq<T>
  {
    if s == [] then []
    else WithKey(s[..|s| - 1], key, k) + if key(s[|s| - 1]) == k then [s[|s| - 1]] else []
  }

  lemma {:induction false} WithKeyAppend<T>(a: seq<T>, b: seq<T>, key: T -> Key3, k: Key3)
    ensures WithKey(a + b, key, k) == WithKey(a, key, k) + WithKey(b, key, k)
    decreases |b|
  {
    if b == [] {
      assert a + b == a;
    } else {
      var b' := b[..|b| - 1];
      assert (a + b)[..|a + b| - 1] == a + b';
      WithKeyAppend(a, b', key, k);
    }
  }

  /** Inserting `x` adds it after the elements that share its key and changes nothing for other keys. */
  lemma {:induction false} InsertWithKey<T>(s: seq<T>, x: T, key: T -> Key3, k: Key3)
    requires SortedBy(s, key)
    ensures WithKey(Insert(s, x, key), key, k) == WithKey(s, key, k) + if key(x) == k then [x] else []
    decreases |s|
  {
    if s == [] {
      assert WithKey([x], key, k) == WithKey([], key, k) + if key(x) == k then [x] else [];
    } else if Le(key(s[|s| - 1]), key(x)) {
      WithKeyAppend(s, [x], key, k);
      assert WithKey([x], key, k) == WithKey([], key, k) + if key(x) == k then [x] else [];
    } else {
      var last := s[|s| - 1];
      var front := s[..|s| - 1];
      var tail := if key(x) == k then [x] else [];
      var lastOnly := if key(last) == k then [last] else [];
      assert Insert(s, x, key) == Insert(front, x, key) + [last];
      InsertWithKey(front, x, key, k);
      WithKeyAppend(Insert(front, x, key), [last], key, k);
      assert WithKey([last], key, k) == WithKey([], key, k) + lastOnly;
      assert WithKey(s, key, k) == WithKey(front, key, k) + lastOnly;
      assert tail == [] || lastOnly == [];
      SwapPastEmpty(WithKey(front, key, k), tail, lastOnly);
    }
  }

  lemma SwapPastEmpty<T>(a: seq<T>, b: seq<T>, c: seq<T>)
    requires b == [] || c == []
    ensures a + b + c == a + c + b
  {
  }

  /** `sorted` is stable: the elements with any one key keep their input order. */
  lemma {:induction false} SortStable<T>(s: seq<T>, key: T -> Key3, k: Key3)
    ensures WithKey(SortByKey(s, key), key, k) == WithKey(s, key, k)
  {
    if s != [] {
      var front := s[..|s| - 1];
      SortStable(front, key, k);
      InsertWithKey(SortByKey(front, key), s[|s| - 1], key, k);
    }
  }

  /** Index of the first element with a maximal key: `max(s, key=key)` on a list. */
  function FirstMax<T>(s: seq<T>, key: T -> Key3): (i: nat)
    requires |s| > 0
    ensures i < |s|
    ensures forall j :: 0 <= j < |s| ==> Le(key(s[j]), key(s[i]))
    ensures forall j :: 0 <= j < i ==> Lt(key(s[j]), key(s[i]))
  {
    if |s| == 1 then 0
    else
      var i := FirstMax(s[..|s| - 1], key);
      assert forall j :: 0 <= j < |s| - 1 ==> s[..|s| - 1][j] == s[j];
      if Lt(key(s[i]), key(s[|s| - 1])) then |s| - 1 else i
  }

  /**
   * `max(S, key=key)` on a set: an element whose key no other element exceeds.
   * Python's choice among equal keys follows the set's hash order, which the
   * model leaves open.
   */
  method PickBest<T>(S: set<T>, key: T -> Key3) returns (best: T)
    requires S != {}
    ensures best in S
    ensures forall x :: x in S ==> Le(key(x), key(best))
  {
    best :| best in S;
    var rest := S - {best};
    var seen := {best};
    while rest != {}
      invariant best in S
      invariant seen + rest == S
      invariant forall x :: x in seen ==> Le(key(x), key(best))
      decreases |rest|
    {
      var x :| x in rest;
      if Lt(key(best), key(x)) {
        best := x;
      }
      seen := seen + {x};
      rest := rest - {x};
    }
  }
}
