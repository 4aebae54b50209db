/** Counting ballots: the increment loop, conservation, and order independence. */
module VoteTally {
  import opened Wrappers
  import opened Votes
  import opened Folding

  /** Each count is the number of ballots that name its option. */
  ghost predicate Counts(counts: seq<nat>, ballots: seq<Ballot>) {
    forall o :: 0 <= o < |counts| ==> counts[o] == |Naming(ballots, o)|
  }

  function Naming(ballots: seq<Ballot>, option: int): set<nat> {
    set i: nat | i < |ballots| && ballots[i].option == option
  }

  lemma {:induction false} CountIsNaming(ballots: seq<Ballot>, option: int)
    ensures CountFor(ballots, option) == |Naming(ballots, option)|
    decreases |ballots|
  {
    if ballots != [] {
      var n := |ballots| - 1;
      CountIsNaming(ballots[..n], option);
      CountConcat(ballots[..n], ballots[n..], option);
      assert ballots == ballots[..n] + ballots[n..] && ballots[n..] == [ballots[n]];
      assert Naming(ballots, option) == Naming(ballots[..n], option) + if ballots[n].option == option then {n} else {};
    }
  }

  /** A tally gives every option the number of ballots that name it, and has no other counts. */
  lemma TallyCounts(options: nat, ballots: seq<Ballot>)
    ensures |Tally(options, ballots)| == options && Counts(Tally(options, ballots), ballots)
  {
    forall o | 0 <= o < options ensures Tally(options, ballots)[o] == |Naming(ballots, o)| { CountIsNaming(ballots, o); }
  }

  /** The loop both `close_and_broadcast_vote` and `build_vote_tally` run over an array of
      counters; an out-of-range option is ignored. */
  method BuildTally(options: nat, ballots: seq<Ballot>) returns (counts: seq<nat>)
    ensures counts == Tally(options, ballots)
    ensures |counts| == options && forall o :: 0 <= o < options ==> counts[o] == |set i: nat | i < |ballots| && ballots[i].option == o|
  {
    var tally := new nat[options](_ => 0);
    var i := 0;
    assert ballots[0..] == ballots;
    while i < |ballots|
      invariant 0 <= i <= |ballots|
      invariant forall o :: 0 <= o < options ==> tally[o] + CountFor(ballots[i..], o) == CountFor(ballots, o)
    {
      assert ballots[i..][1..] == ballots[i + 1..];
      var option := ballots[i].option;
      if option < tally.Length { tally[option] := tally[option] + 1; }
      i := i + 1;
    }
    counts := tally[..];
    TallyCounts(options, ballots);
    forall o | 0 <= o < options ensures counts[o] == |set i: nat | i < |ballots| && ballots[i].option == o| {
      assert Naming(ballots, o) == set i: nat | i < |ballots| && ballots[i].option == o;
    }
  }

  predicate InRange(options: nat, ballots: seq<Ballot>) {
    forall b :: b in ballots ==> b.option < options
  }

  lemma {:induction false} SumOfBumped(counts: seq<nat>, bumped: seq<nat>, at: nat)
    requires at < |counts| == |bumped|
    requires forall i :: 0 <= i < |counts| ==> bumped[i] == counts[i] + if i == at then 1 else 0
    ensures Sum(bumped) == Sum(counts) + 1
  {
    if at == 0 {
      assert counts[1..] == bumped[1..];
    } else {
      SumOfBumped(counts[1..], bumped[1..], at - 1);
    }
  }

  lemma {:induction false} SumOfZeros(counts: seq<nat>)
    requires forall i :: 0 <= i < |counts| ==> counts[i] == 0
    ensures Sum(counts) == 0
  {
    if counts != [] { SumOfZeros(counts[1..]); }
  }

  /** The counts never exceed the ballots, and they add up to the ballots exactly when
      every ballot names an existing option. */
  lemma {:induction false} TallyConserves(options: nat, ballots: seq<Ballot>)
    ensures Sum(Tally(options, ballots)) <= |ballots|
    ensures Sum(Tally(options, ballots)) == |ballots| <==> InRange(options, ballots)
  {
    if ballots == [] {
      SumOfZeros(Tally(options, ballots));
    } else {
      var rest := ballots[1..];
      TallyConserves(options, rest);
      assert ballots == [ballots[0]] + rest;
      if ballots[0].option < options {
        SumOfBumped(Tally(options, rest), Tally(options, ballots), ballots[0].option);
      } else {
        assert Tally(options, ballots) == Tally(options, rest);
        assert ballots[0] in ballots;
      }
    }
  }

  function Counting(option: int): (nat, Ballot) -> nat {
    (n: nat, b: Ballot) => n + if b.option == option then 1 else 0
  }

  lemma {:induction false} CountIsFold(n: nat, ballots: seq<Ballot>, option: int)
    ensures Fold(Counting(option), n, ballots) == n + CountFor(ballots, option)
    decreases ballots
  {
    if ballots != [] {
      CountIsFold(Counting(option)(n, ballots[0]), ballots[1..], option);
    }
  }

  /** The tally of any two orderings of the same ballots is the same. */
  lemma TallyIgnoresOrder(options: nat, a: seq<Ballot>, b: seq<Ballot>)
    requires multiset(a) == multiset(b)
    ensures Tally(options, a) == Tally(options, b)
  {
    forall o | 0 <= o < options ensures CountFor(a, o) == CountFor(b, o) {
      PermutationIrrelevant(Counting(o), 0, a, b);
      CountIsFold(0, a, o);
      CountIsFold(0, b, o);
    }
  }

  lemma {:induction false} CountConcat(a: seq<Ballot>, b: seq<Ballot>, option: int)
    ensures CountFor(a + b, option) == CountFor(a, option) + CountFor(b, option)
  {
    if a == [] {
      assert a + b == b;
    } else {
      assert (a + b)[1..] == a[1..] + b;
      CountConcat(a[1..], b, option);
    }
  }

  predicate NoneInRange(options: nat, ballots: seq<Ballot>) {
    forall b :: b in ballots ==> b.option >= options
  }

  lemma {:induction false} NoneCounted(ballots: seq<Ballot>, option: nat)
    ensures CountFor(ballots, option) == 0 <==> forall b :: b in ballots ==> b.option != option
  {
    if ballots != [] {
      NoneCounted(ballots[1..], option);
      assert ballots == [ballots[0]] + ballots[1..];
    }
  }

  /** Extra ballots go unseen in the tally exactly when none of them names an option. */
  lemma ExtraBallotsShowIff(options: nat, some: seq<Ballot>, extra: seq<Ballot>)
    ensures Tally(options, some + extra) == Tally(options, some) <==> NoneInRange(options, extra)
  {
    forall o | 0 <= o < options
      ensures Tally(options, some + extra)[o] == Tally(options, some)[o] <==> forall b :: b in extra ==> b.option != o
    {
      CountConcat(some, extra, o);
      NoneCounted(extra, o);
    }
    if b :| b in extra && b.option < options {
      assert Tally(options, some + extra)[b.option] != Tally(options, some)[b.option];
    }
  }
}
