/** Stable sorting by an integer key. */
module Sorting {

  ghost predicate SortedBy<T(!new)>(key: T -> int, s: seq<T>) {
    forall i, j :: 0 <= i < j < |s| ==> key(s[i]) <= key(s[j])
  }

  /** `x` goes after every element whose key is not larger. */
  function Insert<T>(key: T -> int, s: seq<T>, x: T): seq<T> {
    if s == [] || key(s[|s| - 1]) <= key(x) then s + [x]
    else Insert(key, s[..|s| - 1], x) + [s[|s| - 1]]
  }

  function Sort<T>(key: T -> int, s: seq<T>): seq<T> {
    if s == [] then [] else Insert(key, Sort(key, s[..|s| - 1]), s[|s| - 1])
  }

  lemma {:induction false} InsertKeeps<T(!new)>(key: T -> int, s: seq<T>, x: T)
    ensures multiset(Insert(key, s, x)) == multiset(s) + multiset{x}
    decreases s
  {
    if s != [] && key(s[|s| - 1]) > key(x) {
      InsertKeeps(key, s[..|s| - 1], x);
      assert s == s[..|s| - 1] + [s[|s| - 1]];
    }
  }

  ghost predicate AtMost<T(!new)>(key: T -> int, s: seq<T>, bound: int) {
    forall i :: 0 <= i < |s| ==> key(s[i]) <= bound
  }

  lemma {:induction false} InsertSorted<T(!new)>(key: T -> int, s: seq<T>, x: T, bound: int)
    requires SortedBy(key, s) && AtMost(key, s, bound) && key(x) <= bound
    ensures SortedBy(key, Insert(key, s, x)) && AtMost(key, Insert(key, s, x), bound)
    decreases s
  {
    if s != [] && key(s[|s| - 1]) > key(x) {
      InsertSorted(key, s[..|s| - 1], x, key(s[|s| - 1]));
    }
  }

  lemma InsertExact<T(!new)>(key: T -> int, s: seq<T>, x: T)
    requires SortedBy(key, s)
    ensures SortedBy(key, Insert(key, s, x))
    ensures multiset(Insert(key, s, x)) == multiset(s) + multiset{x}
    ensures |Insert(key, s, x)| == |s| + 1
    ensures forall y :: y in Insert(key, s, x) <==> y in s || y == x
  {
    InsertKeeps(key, s, x);
    InsertSorted(key, s, x, if s == [] || key(s[|s| - 1]) <= key(x) then key(x) else key(s[|s| - 1]));
    assert |multiset(Insert(key, s, x))| == |multiset(s) + multiset{x}|;
    assert forall y :: y in Insert(key, s, x) <==> y in multiset(Insert(key, s, x));
    assert forall y :: y in s <==> y in multiset(s);
  }

  /** Sorting orders by key and keeps every element. */
  lemma {:induction false} SortExact<T(!new)>(key: T -> int, s: seq<T>)
    ensures SortedBy(key, Sort(key, s))
    ensures multiset(Sort(key, s)) == multiset(s)
    ensures |Sort(key, s)| == |s|
    ensures forall x :: x in Sort(key, s) <==> x in s
    decreases s
  {
    if s != [] {
      var n := |s| - 1;
      SortExact(key, s[..n]);
      InsertExact(key, Sort(key, s[..n]), s[n]);
      assert s == s[..n] + [s[n]];
    }
    assert |multiset(Sort(key, s))| == |multiset(s)|;
    assert forall x :: x in Sort(key, s) <==> x in multiset(Sort(key, s));
    assert forall x :: x in s <==> x in multiset(s);
  }

  /** A sorted sequence is left alone. */
  lemma {:induction false} SortFixed<T(!new)>(key: T -> int, s: seq<T>)
    requires SortedBy(key, s)
    ensures Sort(key, s) == s
    decreases s
  {
    if s != [] {
      var n := |s| - 1;
      SortFixed(key, s[..n]);
      assert s == s[..n] + [s[n]];
    }
  }

  function WithKey<T>(key: T -> int, s: seq<T>, k: int): seq<T> {
    if s == [] then []
    else WithKey(key, s[..|s| - 1], k) + if key(s[|s| - 1]) == k then [s[|s| - 1]] else []
  }

  lemma {:induction false} InsertStable<T(!new)>(key: T -> int, s: seq<T>, x: T, k: int)
    ensures WithKey(key, Insert(key, s, x), k) == WithKey(key, s, k) + if key(x) == k then [x] else []
    decreases s
  {
    if s == [] || key(s[|s| - 1]) <= key(x) {
      assert (s + [x])[..|s|] == s;
    } else {
      var n := |s| - 1;
      InsertStable(key, s[..n], x, k);
      assert (Insert(key, s[..n], x) + [s[n]])[..|Insert(key, s[..n], x)|] == Insert(key, s[..n], x);
    }
  }

  /** Elements with equal keys keep their order. */
  lemma {:induction false} SortStable<T(!new)>(key: T -> int, s: seq<T>, k: int)
    ensures WithKey(key, Sort(key, s), k) == WithKey(key, s, k)
    decreases s
  {
    if s != [] {
      var n := |s| - 1;
      SortStable(key, s[..n], k);
      InsertStable(key, Sort(key, s[..n]), s[n], k);
    }
  }

  ghost predicate DistinctKeys<T(!new)>(key: T -> int, s: seq<T>) {
    forall i, j :: 0 <= i < j < |s| ==> key(s[i]) != key(s[j])
  }

  lemma LastAgrees<T(!new)>(key: T -> int, s: seq<T>, t: seq<T>)
    requires SortedBy(key, s) && SortedBy(key, t) && DistinctKeys(key, s)
    requires multiset(s) == multiset(t) && s != []
    ensures |s| == |t| && s[|s| - 1] == t[|t| - 1]
  {
    assert |multiset(s)| == |multiset(t)|;
    var n := |s| - 1;
    assert s[n] in multiset(s) && t[n] in multiset(t);
    var i :| 0 <= i < |t| && t[i] == s[n];
    var j :| 0 <= j < |s| && s[j] == t[n];
    assert key(t[i]) <= key(t[n]) && key(s[j]) <= key(s[n]);
  }

  /** With distinct keys there is only one sorted arrangement of the same elements. */
  lemma {:induction false} SortedUnique<T(!new)>(key: T -> int, s: seq<T>, t: seq<T>)
    requires SortedBy(key, s) && SortedBy(key, t) && DistinctKeys(key, s)
    requires multiset(s) == multiset(t)
    ensures s == t
    decreases s
  {
    if s == [] {
      assert |multiset(t)| == 0;
    } else {
      LastAgrees(key, s, t);
      DropSame(s, t);
      SortedUnique(key, s[..|s| - 1], t[..|t| - 1]);
    }
  }

  lemma DropSame<T(!new)>(s: seq<T>, t: seq<T>)
    requires |s| == |t| > 0 && s[|s| - 1] == t[|t| - 1] && multiset(s) == multiset(t)
    ensures multiset(s[..|s| - 1]) == multiset(t[..|t| - 1])
    ensures s[..|s| - 1] == t[..|t| - 1] ==> s == t
  {
    var n := |s| - 1;
    assert s == s[..n] + [s[n]] && t == t[..n] + [t[n]];
    assert multiset(s[..n]) == multiset(s) - multiset{s[n]};
    assert multiset(t[..n]) == multiset(t) - multiset{t[n]};
  }

  ghost predicate Rising<T(!new)>(key: T -> int, s: seq<T>) {
    forall i, j :: 0 <= i < j < |s| ==> key(s[i]) < key(s[j])
  }

  lemma RisingTail<T(!new)>(key: T -> int, s: seq<T>)
    requires Rising(key, s) && s != []
    ensures Rising(key, s[1..])
    ensures forall x :: x in s[1..] <==> x in s && x != s[0]
    ensures forall x :: x in s ==> key(s[0]) <= key(x)
  {
    assert s == [s[0]] + s[1..];
    forall x | x in s[1..] ensures x != s[0] {
      var k :| 0 <= k < |s[1..]| && s[1..][k] == x;
      assert s[k + 1] == x && key(s[0]) < key(s[k + 1]);
    }
  }

  /** Rising sequences with the same members are the same sequence. */
  lemma {:induction false} RisingUnique<T(!new)>(key: T -> int, a: seq<T>, b: seq<T>)
    requires Rising(key, a) && Rising(key, b) && forall x :: x in a <==> x in b
    ensures a == b
    decreases a
  {
    assert b != [] ==> b[0] in b;
    if a != [] {
      assert a[0] in b;
      RisingTail(key, a);
      RisingTail(key, b);
      assert b[0] in a;
      var i :| 0 <= i < |b| && b[i] == a[0];
      assert i == 0;
      RisingUnique(key, a[1..], b[1..]);
    }
  }
}
