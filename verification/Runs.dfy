/** Runs of a transition system, as the list of their steps. */
module Runs {

  /** A step: the state it starts from and the event. */
  datatype Moment<S, E> = Moment(st: S, e: E)

  function StateAt<S, E>(run: seq<Moment<S, E>>, last: S, i: nat): S {
    if i < |run| then run[i].st else last
  }

  /** The i-th step leads to the state of the next. */
  predicate LeadsOn<S, E>(leads: (S, E, S) -> bool, run: seq<Moment<S, E>>, last: S, i: nat)
    requires i < |run|
  {
    leads(run[i].st, run[i].e, StateAt(run, last, i + 1))
  }

  /** `run` leads from `start` to `last`, step by step. */
  ghost predicate IsRun<S, E>(leads: (S, E, S) -> bool, start: S, run: seq<Moment<S, E>>, last: S) {
    StateAt(run, last, 0) == start && forall i :: 0 <= i < |run| ==> LeadsOn(leads, run, last, i)
  }

  /** What leads up to the last step of a run is a run. */
  lemma RunPrefix<S, E>(leads: (S, E, S) -> bool, start: S, run: seq<Moment<S, E>>, last: S, n: nat)
    requires IsRun(leads, start, run, last) && n < |run|
    ensures IsRun(leads, start, run[..n], run[n].st)
    ensures leads(run[n].st, run[n].e, StateAt(run, last, n + 1))
  {
    assert LeadsOn(leads, run, last, n);
    forall i | 0 <= i < n ensures LeadsOn(leads, run[..n], run[n].st, i) { assert LeadsOn(leads, run, last, i); }
  }

  /** One more step. */
  lemma RunExtend<S, E>(leads: (S, E, S) -> bool, start: S, run: seq<Moment<S, E>>, last: S, e: E, next: S)
    requires IsRun(leads, start, run, last) && leads(last, e, next)
    ensures IsRun(leads, start, run + [Moment(last, e)], next)
  {
    forall i | 0 <= i < |run| ensures LeadsOn(leads, run + [Moment(last, e)], next, i) { assert LeadsOn(leads, run, last, i); }
  }

  /** What the start has and every step keeps, every state of a run has. */
  lemma {:induction false} RunInvariant<S, E>(leads: (S, E, S) -> bool, inv: S -> bool, start: S, run: seq<Moment<S, E>>, last: S)
    requires IsRun(leads, start, run, last) && inv(start)
    requires forall st, e, next :: inv(st) && leads(st, e, next) ==> inv(next)
    ensures inv(last) && forall i :: 0 <= i < |run| ==> inv(run[i].st)
    decreases |run|
  {
    if run != [] {
      var n := |run| - 1;
      RunPrefix(leads, start, run, last, n);
      RunInvariant(leads, inv, start, run[..n], run[n].st);
      assert forall i :: 0 <= i < n ==> run[..n][i] == run[i];
    }
  }

  /** Where a step out of a good state ends in a good state exactly if it is kept, the states
      of a run are all good exactly if its steps are all kept. */
  lemma {:induction false} ThroughoutIff<S, E>(
    leads: (S, E, S) -> bool, inv: S -> bool, good: S -> bool, keeps: (S, E) -> bool, start: S, run: seq<Moment<S, E>>, last: S)
    requires IsRun(leads, start, run, last) && inv(start) && good(start)
    requires forall st, e, next :: inv(st) && leads(st, e, next) ==> inv(next) && (good(st) ==> (good(next) <==> keeps(st, e)))
    ensures (good(last) && forall i :: 0 <= i < |run| ==> good(run[i].st)) <==> (forall i :: 0 <= i < |run| ==> keeps(run[i].st, run[i].e))
    decreases |run|
  {
    if run != [] {
      var n := |run| - 1;
      RunPrefix(leads, start, run, last, n);
      ThroughoutIff(leads, inv, good, keeps, start, run[..n], run[n].st);
      RunInvariant(leads, inv, start, run, last);
      assert forall i :: 0 <= i < n ==> run[..n][i] == run[i];
    }
  }

  /** How many steps of a run are of a kind. */
  function Count<S, E>(kind: E -> bool, run: seq<Moment<S, E>>): nat {
    if run == [] then 0 else Count(kind, run[..|run| - 1]) + if kind(run[|run| - 1].e) then 1 else 0
  }

  /** Where every step of a kind uses something up and no other step adds to it, a run has no
      more steps of that kind than there was to use up. */
  lemma {:induction false} RunSpends<S, E>(
    leads: (S, E, S) -> bool, inv: S -> bool, kind: E -> bool, left: S -> nat, start: S, run: seq<Moment<S, E>>, last: S)
    requires IsRun(leads, start, run, last) && inv(start)
    requires forall st, e, next :: inv(st) && leads(st, e, next) ==> inv(next) && (if kind(e) then 1 else 0) + left(next) <= left(st)
    ensures inv(last) && Count(kind, run) + left(last) <= left(start)
    decreases |run|
  {
    if run != [] {
      var n := |run| - 1;
      RunPrefix(leads, start, run, last, n);
      RunSpends(leads, inv, kind, left, start, run[..n], run[n].st);
    }
  }
}
