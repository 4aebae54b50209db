/** Mapping every element of a sequence to a sequence and joining the results. */
module Sequences {

  function Join<T, U>(f: T -> seq<U>, s: seq<T>): seq<U> {
    if s == [] then [] else f(s[0]) + Join(f, s[1..])
  }

  lemma {:induction false} JoinConcat<T, U>(f: T -> seq<U>, a: seq<T>, b: seq<T>)
    ensures Join(f, a + b) == Join(f, a) + Join(f, b)
  {
    if a == [] {
      assert a + b == b;
    } else {
      assert (a + b)[1..] == a[1..] + b;
      JoinConcat(f, a[1..], b);
    }
  }

  lemma JoinAppend<T, U>(f: T -> seq<U>, s: seq<T>, last: T)
    ensures Join(f, s + [last]) == Join(f, s) + f(last)
  {
    JoinConcat(f, s, [last]);
    assert [last][1..] == [];
  }

  lemma {:induction false} JoinMembers<T(!new), U(!new)>(f: T -> seq<U>, s: seq<T>)
    ensures forall u :: u in Join(f, s) <==> exists t :: t in s && u in f(t)
  {
    if s != [] {
      JoinMembers(f, s[1..]);
      assert s == [s[0]] + s[1..];
    }
  }

  lemma JoinRemoveAt<T, U>(f: T -> seq<U>, s: seq<T>, i: nat)
    requires i < |s|
    ensures multiset(Join(f, s)) == multiset(Join(f, s[..i] + s[i + 1..])) + multiset(f(s[i]))
  {
    var front, back := s[..i], s[i + 1..];
    var middle := s[i..];
    assert s == front + middle && middle[1..] == back;
    JoinConcat(f, front, middle);
    JoinConcat(f, front, back);
    assert Join(f, middle) == f(s[i]) + Join(f, back);
  }

  lemma TakeOut<T>(a: seq<T>, b: seq<T>, k: nat)
    requires multiset(a) == multiset(b) && a != [] && k < |b| && b[k] == a[0]
    ensures multiset(a[1..]) == multiset(b[..k] + b[k + 1..])
  {
    assert a == [a[0]] + a[1..] && b == b[..k] + [b[k]] + b[k + 1..];
    assert multiset(a[1..]) == multiset(a) - multiset{a[0]};
    assert multiset(b[..k] + b[k + 1..]) == multiset(b) - multiset{b[k]};
  }

  /** The order of the elements only matters for the order of the results. */
  lemma {:induction false} JoinPermutes<T(!new), U(!new)>(f: T -> seq<U>, a: seq<T>, b: seq<T>)
    requires multiset(a) == multiset(b)
    ensures multiset(Join(f, a)) == multiset(Join(f, b))
    decreases a
  {
    if a == [] {
      assert |multiset(b)| == 0;
    } else {
      assert a[0] in multiset(b);
      var k :| 0 <= k < |b| && b[k] == a[0];
      TakeOut(a, b, k);
      JoinPermutes(f, a[1..], b[..k] + b[k + 1..]);
      JoinRemoveAt(f, b, k);
    }
  }
}
