/** Repeating a step over a sequence of keys, and when the order of the keys is irrelevant. */
module Folding {

  function Fold<S, K>(step: (S, K) -> S, s: S, order: seq<K>): S
    decreases order
  {
    if order == [] then s else Fold(step, step(s, order[0]), order[1..])
  }

  ghost predicate CommutesOn<S(!new), K(!new)>(step: (S, K) -> S, keys: seq<K>) {
    forall s, j, k :: j in keys && k in keys && j != k ==> step(step(s, j), k) == step(step(s, k), j)
  }

  lemma FoldFirst<S, K>(step: (S, K) -> S, s: S, k: K, order: seq<K>)
    ensures Fold(step, s, [k] + order) == Fold(step, step(s, k), order)
  {
    assert ([k] + order)[1..] == order;
  }

  lemma {:induction false} MoveToFront<S(!new), K(!new)>(step: (S, K) -> S, s: S, front: seq<K>, k: K, back: seq<K>)
    requires CommutesOn(step, front + [k] + back)
    ensures Fold(step, s, front + [k] + back) == Fold(step, s, [k] + (front + back))
    decreases front
  {
    if front == [] {
      assert front + [k] + back == [k] + (front + back);
    } else {
      var first, rest := front[0], front[1..];
      assert front + [k] + back == [first] + (rest + [k] + back);
      assert front + back == [first] + (rest + back);
      assert first in front + [k] + back && k in front + [k] + back;
      assert forall x :: x in rest + [k] + back ==> x in front + [k] + back;
      FoldFirst(step, s, first, rest + [k] + back);
      MoveToFront(step, step(s, first), rest, k, back);
      FoldFirst(step, step(s, first), k, rest + back);
      FoldFirst(step, s, k, front + back);
      FoldFirst(step, step(s, k), first, rest + back);
    }
  }

  /** Where the steps commute, folding over any permutation of the keys ends alike. */
  lemma {:induction false} PermutationIrrelevant<S(!new), K(!new)>(step: (S, K) -> S, s: S, p: seq<K>, q: seq<K>)
    requires CommutesOn(step, q)
    requires multiset(p) == multiset(q)
    ensures Fold(step, s, p) == Fold(step, s, q)
    decreases p
  {
    if p == [] {
      assert |q| == |multiset(q)| == 0;
    } else {
      assert p[0] in multiset(p);
      var i :| 0 <= i < |q| && q[i] == p[0];
      var rest := q[..i] + q[i + 1..];
      assert q == q[..i] + [q[i]] + q[i + 1..];
      MoveToFront(step, s, q[..i], q[i], q[i + 1..]);
      FoldFirst(step, s, p[0], rest);
      assert p == [p[0]] + p[1..];
      assert multiset(p) - multiset{p[0]} == multiset(p[1..]);
      assert multiset(q) == multiset(q[..i]) + multiset{p[0]} + multiset(q[i + 1..]);
      assert multiset(q) - multiset{p[0]} == multiset(rest);
      assert forall k :: k in rest ==> k in q;
      PermutationIrrelevant(step, step(s, p[0]), p[1..], rest);
    }
  }
}
