/** Runs in which a ballot reaches the store and not the copy that is counted. */
module VoteExamples {
  import opened Wrappers
  import opened Maps
  import opened Runs
  import opened Votes
  import opened VoteTally
  import opened VoteRuns
  import opened VoteResults

  const ID: VoteId := "v"
  const ASKED := Question("r", "t", ["yes", "no"], "a", 0, Some(1))
  const VOTERS := ["a", "b"]
  const YES := Ballot("a", "a", 0)
  const STRAY := Ballot("a", "a", 7)

  /** Only this vote was ever created, and no ballot of it is recorded. */
  function Scene(active: Option<seq<Ballot>>, open: bool, ballots: seq<Ballot>, pending: seq<Cast>, ending: Option<Ending>, announced: seq<Announcement>): State {
    State(map[], if active.Some? then map[ID := Active(active.value)] else map[],
          map[ID := StoredVote(ASKED, open, 2, {"a", "b"}, ballots)],
          pending, map[], [], if ending.Some? then map[ID := ending.value] else map[], {ID}, announced, map[ID := []])
  }

  function Active(ballots: seq<Ballot>): ActiveVote {
    ActiveVote(ASKED, ballots, 2, {"a", "b"}, false)
  }

  ghost predicate Reached(st: State) {
    exists run :: IsRun(LeadsTo, EMPTY, run, st)
  }

  lemma Then(st: State, e: Event, next: State)
    requires Reached(st) && Legal(st, e) && next == Step(st, e).0
    ensures Reached(next)
  {
    var run :| IsRun(LeadsTo, EMPTY, run, st);
    RunExtend(LeadsTo, EMPTY, run, st, e, next);
    assert IsRun(LeadsTo, EMPTY, run + [Moment(st, e)], next);
  }

  lemma CreatedFirst()
    ensures Reached(Created())
  {
    assert IsRun(LeadsTo, EMPTY, [], EMPTY);
    assert Elements(VOTERS) == {"a", "b"} && "a" in VOTERS;
    Then(EMPTY, CreateVote(ID, ASKED, VOTERS, false), Created());
  }

  lemma VoteCreated()
    ensures Reached(Scene(Some([]), true, [], [], None, []))
  {
    CreatedFirst();
    assert Created().opening - {ID} == map[];
    Then(Created(), OpenVote(ID), Scene(Some([]), true, [], [], None, []));
  }

  function Created(): State {
    Scene(None, true, [], [], None, []).(opening := map[ID := Active([])])
  }

  lemma PersistedBefore()
    ensures Reached(Scene(Some([]), true, [YES], [Cast(ID, YES)], None, []))
  {
    VoteCreated();
    assert [] + [YES] == [YES] && [] + [Cast(ID, YES)] == [Cast(ID, YES)];
    Then(Scene(Some([]), true, [], [], None, []), PersistBallot(ID, YES, true), Scene(Some([]), true, [YES], [Cast(ID, YES)], None, []));
  }

  lemma Expiring(recorded: seq<Ballot>, row: seq<Ballot>, pending: seq<Cast>, late: seq<Ballot>)
    requires Reached(Scene(Some(recorded), true, row, pending, None, []))
    requires late == PendingFor(pending, ID)
    ensures Reached(Scene(None, true, row, pending, Some(Ending(Active(recorded), None, late)), []))
  {
    var st := Scene(Some(recorded), true, row, pending, None, []);
    assert st.memory - {ID} == map[] && st.missed - {ID} == map[] && late + [] == late;
    Then(st, Deadline(ID), Scene(None, true, row, pending, Some(Ending(Active(recorded), None, late)), []));
  }

  lemma Ended(recorded: seq<Ballot>, row: seq<Ballot>, pending: seq<Cast>, late: seq<Ballot>)
    requires Reached(Scene(None, true, row, pending, Some(Ending(Active(recorded), None, late)), []))
    ensures Reached(Scene(None, false, row, pending, None, [ResultOf(ID, Active(recorded))]))
  {
    var st := Scene(None, true, row, pending, Some(Ending(Active(recorded), None, late)), []);
    assert st.ending - {ID} == map[];
    assert [] + [ResultOf(ID, Active(recorded))] == [ResultOf(ID, Active(recorded))];
    Then(st, EndVote(ID), Scene(None, false, row, pending, None, [ResultOf(ID, Active(recorded))]));
  }

  /** A vote that was broadcast with no ballots and has one in the store. */
  predicate Splits(st: State, b: Ballot) {
    && |st.announced| == 1 && st.announced[0].vote == ID
    && st.announced[0].ballots == [] && st.announced[0].tally == [0, 0]
    && ID in st.stored && st.stored[ID].ballots == [b]
  }

  lemma StoredTallies()
    ensures Tally(2, []) == [0, 0] == Tally(2, [STRAY]) && Tally(2, [YES]) == [1, 0]
  {
    assert [YES][1..] == [] && [STRAY][1..] == [];
    assert CountFor([YES], 0) == 1 && CountFor([YES], 1) == 0 && CountFor([STRAY], 0) == 0 == CountFor([STRAY], 1);
  }

  /** A run in which the deadline fires between the two steps of a cast: the ballot is in
      the store, the cast will fail, and the result was broadcast without it. */
  lemma LateBallotSplitsTally()
    ensures exists run, last: State :: IsRun(LeadsTo, EMPTY, run, last) && Splits(last, YES) && GetStatus(last, ID).info.tally == Some([1, 0])
  {
    var cast := Cast(ID, YES);
    PersistedBefore();
    assert [cast][1..] == [] && PendingFor([cast], ID) == CastFor(ID)(cast) + PendingFor([], ID);
    Expiring([], [YES], [cast], [YES]);
    Ended([], [YES], [cast], [YES]);
    StoredTallies();
    var last := Scene(None, false, [YES], [cast], None, [ResultOf(ID, Active([]))]);
    assert Reached(last) && Splits(last, YES);
  }

  lemma CastWhileEnding(b: Ballot)
    requires b.agent == "a"
    ensures var st := Scene(None, true, [], [], Some(Ending(Active([]), None, [])), []);
      Persist(st, ID, b, true).0 == Scene(None, true, [b], [Cast(ID, b)], Some(Ending(Active([]), None, [b])), [])
  {
    var st := Scene(None, true, [], [], Some(Ending(Active([]), None, [])), []);
    assert [] + [b] == [b] && [] + [Cast(ID, b)] == [Cast(ID, b)];
    assert st.ending[ID := Ending(Active([]), None, [b])] == map[ID := Ending(Active([]), None, [b])];
    assert Persist(st, ID, b, true) == InsertBallot(st, ID, b);
  }

  lemma RemovedThenCast(b: Ballot)
    requires b.agent == "a"
    ensures Reached(Scene(None, true, [b], [Cast(ID, b)], Some(Ending(Active([]), None, [b])), []))
  {
    VoteCreated();
    assert PendingFor([], ID) == [];
    Expiring([], [], [], []);
    CastWhileEnding(b);
    Then(Scene(None, true, [], [], Some(Ending(Active([]), None, [])), []), PersistBallot(ID, b, true),
         Scene(None, true, [b], [Cast(ID, b)], Some(Ending(Active([]), None, [b])), []));
  }

  /** A run in which no cast is in progress when the vote is removed, and one is persisted
      before its row is closed; nobody checks its option. */
  lemma CastAfterRemovalSplitsTally(b: Ballot)
    requires b.agent == "a"
    ensures exists run, last: State :: IsRun(LeadsTo, EMPTY, run, last) && Splits(last, b) && GetStatus(last, ID).info.votesCast == 1
  {
    RemovedThenCast(b);
    Ended([], [b], [Cast(ID, b)], [b]);
    StoredTallies();
    var last := Scene(None, false, [b], [Cast(ID, b)], None, [ResultOf(ID, Active([]))]);
    assert Reached(last) && Splits(last, b);
  }

  lemma Restarting(b: Ballot)
    requires Reached(Scene(None, true, [b], [Cast(ID, b)], Some(Ending(Active([]), None, [b])), [])) && b.agent == "a"
    ensures Reached(Scene(Some([b]), true, [b], [], None, []))
  {
    var st := Scene(None, true, [b], [Cast(ID, b)], Some(Ending(Active([]), None, [b])), []);
    var after := Scene(Some([b]), true, [b], [], None, []);
    assert Voters([b]) == {"a"} && {"a", "b"} + {"a"} + {"a"} == {"a", "b"};
    assert Repair(st.stored[ID]) == st.stored[ID];
    RestartUnique(st, map[], after);
    Then(st, Restarted(map[]), after);
  }

  /** A run in which such a ballot names no option and comes back with a restart: the vote
      is announced with a ballot that its tally does not count. */
  lemma StrayBallotIsNotCounted()
    ensures exists run, last :: IsRun(LeadsTo, EMPTY, run, last) && |last.announced| == 1 && Uncounted(last.announced[0])
  {
    RemovedThenCast(STRAY);
    Restarting(STRAY);
    assert PendingFor([], ID) == [];
    Expiring([STRAY], [STRAY], [], []);
    Ended([STRAY], [STRAY], [], []);
    StoredTallies();
    assert [0, 0][1..] == [0] && [0][1..] == [];
    var last := Scene(None, false, [STRAY], [], None, [ResultOf(ID, Active([STRAY]))]);
    assert Reached(last) && Uncounted(last.announced[0]);
  }

  predicate Uncounted(a: Announcement) {
    a.ballots == [STRAY] && Sum(a.tally) == 0
  }

  // --- A cast before the vote is in memory ---

  function Early(pending: seq<Cast>, missed: map<VoteId, seq<Ballot>>): State {
    Scene(None, true, [YES], pending, None, []).(opening := map[ID := Active([])], missed := missed)
  }

  lemma CastEarly()
    ensures Reached(Early([Cast(ID, YES)], map[]))
  {
    CreatedFirst();
    assert [] + [YES] == [YES] && [] + [Cast(ID, YES)] == [Cast(ID, YES)];
    Then(Created(), PersistBallot(ID, YES, true), Early([Cast(ID, YES)], map[]));
  }

  lemma FailsEarly()
    ensures Reached(Early([], map[ID := [YES]]))
  {
    CastEarly();
    assert RemoveAt([Cast(ID, YES)], 0) == [] && [] + [YES] == [YES];
    Then(Early([Cast(ID, YES)], map[]), RecordBallot(0), Early([], map[ID := [YES]]));
  }

  /** A run in which a ballot is stored for a vote that is not yet in memory. The cast fails,
      the vote opens without the ballot, and its voter can never cast it again. */
  lemma EarlyCastIsMissed()
    ensures exists run, last: State :: IsRun(LeadsTo, EMPTY, run, last) && MissesStored(last, YES) && !Mirrored(last)
  {
    var early := Early([], map[ID := [YES]]);
    var last := Scene(Some([]), true, [YES], [], None, []).(missed := map[ID := [YES]]);
    FailsEarly();
    assert early.opening - {ID} == map[];
    Then(early, OpenVote(ID), last);
    assert YES in multiset([YES]) && PendingFor([], ID) == [];
    assert !CopyOf(At(last, ID), At(last, ID).memory);
    assert YES in last.stored[ID].ballots;
    assert Reached(last) && MissesStored(last, YES);
  }

  /** Nothing is in progress, the store has the ballot, memory has none, and casting it again
      is refused. */
  predicate MissesStored(st: State, b: Ballot) {
    && st.pending == [] && ID in st.memory && st.memory[ID].ballots == []
    && ID in st.stored && st.stored[ID].ballots == [b]
    && Persist(st, ID, b, true) == (st, [Failed(AlreadyVoted)])
  }
}
