/** What the voting invariant means for callers: agreement, single announcement, tallies. */
module VoteResults {
  import opened Wrappers
  import opened Runs
  import opened Votes
  import opened Sequences
  import opened VoteTally
  import opened VoteRuns

  // --- Memory and store ---

  /** In every run, an active persistent vote has the same question and electorate in
      memory and in the store; their ballots differ exactly by the casts between their two
      steps and those that failed after their first; voters are distinct and eligible; and
      there are fewer ballots than voters unless a task is about to close the vote. */
  lemma MemoryMatchesStore(run: History, st: State, id: VoteId)
    requires IsRun(LeadsTo, EMPTY, run, st)
    requires id in st.memory && !st.memory[id].ephemeral
    ensures id in st.stored
    ensures var vote, row := st.memory[id], st.stored[id];
      && row.open && vote.question == row.question
      && vote.eligible == row.electorate && vote.eligibleVoters == row.eligibleVoters == |vote.eligible|
      && multiset(row.ballots) == multiset(vote.ballots) + multiset(PendingFor(st.pending, id)) + multiset(MissedFor(st, id))
      && BallotsOk(multiset(row.ballots), row.electorate)
      && BallotsOk(multiset(vote.ballots), vote.eligible)
      && (|vote.ballots| < vote.eligibleVoters || IsClosing(st.closing, id))
  {
    EmptyIsInv();
    RunKeepsInv(EMPTY, run, st);
    assert LocalOk(At(st, id));
    assert multiset(PendingFor(st.pending, id) + MissedFor(st, id)) == multiset(PendingFor(st.pending, id)) + multiset(MissedFor(st, id));
  }

  // --- Over whole runs: when memory holds every ballot but those in progress ---

  predicate CopyOf(l: Local, vote: Option<ActiveVote>) {
    l.stored.Some? && IsPersistent(vote) ==> multiset(l.stored.value.ballots) == multiset(vote.value.ballots) + multiset(l.pending)
  }

  /** Every vote that is opening or active differs from its row only by casts in progress. */
  ghost predicate Mirrored(st: State) {
    forall id :: CopyOf(At(st, id), At(st, id).opening) && CopyOf(At(st, id), At(st, id).memory)
  }

  /** The step ends a cast that fails although its ballot is stored: the vote is not in memory
      yet, or the ballot was stored before and names no option. */
  predicate Fails(st: State, e: Event) {
    && e.RecordBallot? && e.index < |st.pending|
    && var Cast(id, b) := st.pending[e.index];
       && id in st.stored
       && (if id in st.memory then b.option >= |st.memory[id].question.options| else id in st.opening)
  }

  ghost predicate NoneMissed(st: State) {
    forall id :: At(st, id).missed == []
  }

  lemma MirroredLocally(l: Local)
    requires LocalOk(l)
    ensures CopyOf(l, l.opening) && CopyOf(l, l.memory) <==> l.missed == []
  {
    var vote := if l.memory.Some? then l.memory else l.opening;
    assert multiset(l.pending + l.missed) == multiset(l.pending) + multiset(l.missed);
    if l.missed != [] { assert l.missed[0] in multiset(l.missed); }
  }

  lemma MirroredIff(st: State)
    requires Inv(st)
    ensures Mirrored(st) <==> NoneMissed(st)
  {
    forall id ensures CopyOf(At(st, id), At(st, id).opening) && CopyOf(At(st, id), At(st, id).memory) <==> At(st, id).missed == [] {
      assert LocalOk(At(st, id));
      MirroredLocally(At(st, id));
    }
  }

  lemma RecordMissesIff(st: State, i: nat)
    requires Inv(st) && i < |st.pending| && At(st, st.pending[i].vote).missed == []
    ensures At(Record(st, i).0, st.pending[i].vote).missed == [] <==> !Fails(st, RecordBallot(i))
  {
    var id, b := st.pending[i].vote, st.pending[i].ballot;
    var l := At(st, id);
    assert LocalOk(l);
    PendingHere(st.pending, i);
    RecordAt(st, i);
    if id in st.memory && id in st.stored { FailsLocally(l, b); }
  }

  lemma FailsLocally(l: Local, b: Ballot)
    requires LocalOk(l) && b in l.pending && l.memory.Some? && l.stored.Some?
    ensures Accepts(l, b) <==> b.option < |l.memory.value.question.options|
  {
    PendingIsRecordable(l, b);
  }

  lemma RemovalMissesNothing(st: State, e: Event, id: VoteId)
    requires Legal(st, e) && (e.LastBallotIn? || e.Deadline? || e.EndVote?) && MissedFor(st, id) == []
    ensures MissedFor(Step(st, e).0, id) == []
  {
  }

  lemma OtherStepMissesNothing(st: State, e: Event, id: VoteId)
    requires Legal(st, e) && !e.RecordBallot? && MissedFor(st, id) == []
    ensures MissedFor(Step(st, e).0, id) == []
  {
    if e.LastBallotIn? || e.Deadline? || e.EndVote? { RemovalMissesNothing(st, e, id); }
  }

  lemma StepMirrorsIff(st: State, e: Event)
    requires Inv(st) && Legal(st, e) && NoneMissed(st)
    ensures NoneMissed(Step(st, e).0) <==> !Fails(st, e)
  {
    if e.RecordBallot? {
      assert At(st, st.pending[e.index].vote).missed == [];
      RecordMissesIff(st, e.index);
      forall id | id != st.pending[e.index].vote ensures At(Step(st, e).0, id).missed == [] {
        assert At(st, id).missed == [];
        RecordElsewhereAt(st, e.index, id);
      }
    } else {
      forall id ensures At(Step(st, e).0, id).missed == [] {
        assert At(st, id).missed == [] == MissedFor(st, id);
        OtherStepMissesNothing(st, e, id);
      }
    }
  }

  /** In every run, votes in memory and their rows differ by the casts in progress only, at all
      times, if and only if no cast fails after its ballot was stored. */
  lemma MirroredThroughoutIff(run: History, last: State)
    requires IsRun(LeadsTo, EMPTY, run, last)
    ensures (Mirrored(last) && forall i :: 0 <= i < |run| ==> Mirrored(run[i].st)) <==> (forall i :: 0 <= i < |run| ==> !Fails(run[i].st, run[i].e))
  {
    EmptyIsInv();
    var keeps := (st: State, e: Event) => !Fails(st, e);
    forall st, e, next | Inv(st) && LeadsTo(st, e, next) ensures Inv(next) && (NoneMissed(st) ==> (NoneMissed(next) <==> keeps(st, e))) {
      StepKeepsInv(st, e);
      if NoneMissed(st) { StepMirrorsIff(st, e); }
    }
    ThroughoutIff(LeadsTo, Inv, NoneMissed, keeps, EMPTY, run, last);
    RunKeepsInv(EMPTY, run, last);
    MirroredIff(last);
    forall i | 0 <= i < |run| ensures Mirrored(run[i].st) <==> NoneMissed(run[i].st) { MirroredIff(run[i].st); }
  }

  /** A restart, wherever it happens, leaves every open vote active, with exactly its stored
      ballots and fewer of them than voters, and no vote active that is not open. */
  lemma RestartRestores(st: State, orders: map<VoteId, seq<Ballot>>, id: VoteId)
    requires Inv(st) && Legal(st, Restarted(orders))
    ensures var after := Restart(st, orders);
      && Inv(after)
      && (id in after.memory <==> id in after.stored && after.stored[id].open)
      && (id in after.memory ==>
            && multiset(after.memory[id].ballots) == multiset(after.stored[id].ballots)
            && |after.memory[id].ballots| < after.memory[id].eligibleVoters)
  {
    RestartKeepsInv(st, orders);
    RestartAt(st, orders, id);
    assert LocalOk(At(st, id)) && LocalOk(At(Restart(st, orders), id));
    if id in st.stored { RepairIsIdle(st.stored[id]); }
    var none: seq<Ballot> := [];
    assert multiset(none) == multiset{};
  }

  // --- Closing once ---

  lemma ResultsCount(announced: seq<Announcement>, i: nat, j: nat)
    requires i < j < |announced| && announced[i].vote == announced[j].vote
    ensures |ResultsFor(announced, announced[i].vote)| >= 2
  {
    JoinConcat(ResultFor(announced[i].vote), announced[..j], announced[j..]);
    assert announced == announced[..j] + announced[j..];
    ResultsContain(announced[..j], i);
    ResultsContain(announced[j..], 0);
  }

  lemma ResultsContain(announced: seq<Announcement>, i: nat)
    requires i < |announced|
    ensures announced[i] in ResultsFor(announced, announced[i].vote)
  {
    JoinMembers(ResultFor(announced[i].vote), announced);
    assert announced[i] in announced && announced[i] in ResultFor(announced[i].vote)(announced[i]);
  }

  /** An announced vote is neither active nor ending, and its row is closed. */
  lemma AnnouncedIsOver(st: State, a: Announcement)
    requires Inv(st) && a in st.announced
    ensures ResultOk(At(st, a.vote)) && At(st, a.vote).results == [a]
  {
    var i :| 0 <= i < |st.announced| && st.announced[i] == a;
    ResultsContain(st.announced, i);
    assert LocalOk(At(st, a.vote));
  }

  /** No run announces a vote twice; each result lists no more ballots than voters, counts
      every one of them that names an option, and lists every ballot ever recorded. */
  lemma AnnouncedOnceInFull(run: History, st: State)
    requires IsRun(LeadsTo, EMPTY, run, st)
    ensures forall i, j :: 0 <= i < j < |st.announced| ==> st.announced[i].vote != st.announced[j].vote
    ensures forall a :: a in st.announced ==>
      && Sum(a.tally) <= |a.ballots| <= a.eligibleVoters
      && (Sum(a.tally) == |a.ballots| <==> InRange(|a.question.options|, a.ballots))
      && |a.tally| == |a.question.options| && Counts(a.tally, a.ballots)
      && multiset(Recorded(st, a.vote)) <= multiset(a.ballots)
  {
    EmptyIsInv();
    RunKeepsInv(EMPTY, run, st);
    forall i, j | 0 <= i < j < |st.announced| ensures st.announced[i].vote != st.announced[j].vote {
      assert LocalOk(At(st, st.announced[i].vote));
      if st.announced[i].vote == st.announced[j].vote {
        ResultsCount(st.announced, i, j);
      }
    }
    forall a | a in st.announced
      ensures Sum(a.tally) <= |a.ballots| <= a.eligibleVoters
      ensures Sum(a.tally) == |a.ballots| <==> InRange(|a.question.options|, a.ballots)
      ensures |a.tally| == |a.question.options| && Counts(a.tally, a.ballots)
      ensures multiset(Recorded(st, a.vote)) <= multiset(a.ballots)
    {
      AnnouncedIsOver(st, a);
      TallyConserves(|a.question.options|, a.ballots);
      TallyCounts(|a.question.options|, a.ballots);
    }
  }

  /** Once a vote has been removed to be closed, and ever after its result is out, recording
      a further ballot for it is refused and changes neither the tables nor the record. */
  lemma NoBallotAfterClosing(st: State, i: nat)
    requires Inv(st) && i < |st.pending|
    requires st.pending[i].vote in st.ending || ResultsFor(st.announced, st.pending[i].vote) != []
    ensures Record(st, i) == (st.(pending := RemoveAt(st.pending, i)), [Failed(VoteNotFound)])
  {
    assert LocalOk(At(st, st.pending[i].vote));
  }

  /** Nothing already announced is ever withdrawn or changed. */
  lemma ResultsStand(start: State, run: History, last: State)
    requires IsRun(LeadsTo, start, run, last)
    ensures start.announced <= last.announced
  {
    forall st: State, e, next: State | start.announced <= st.announced && LeadsTo(st, e, next) ensures start.announced <= next.announced {
      StepAnnounces(st, e);
    }
    RunInvariant(LeadsTo, (st: State) => start.announced <= st.announced, start, run, last);
  }

  lemma StepAnnounces(st: State, e: Event)
    requires Legal(st, e)
    ensures st.announced <= Step(st, e).0.announced
  {
  }

  // --- The rebuilt tally ---

  /** The vote count and the tally broadcast for a persistent vote are those later rebuilt
      from its stored ballots exactly when its last copy missed no ballot; the tally alone,
      exactly when every ballot it missed names no option. */
  lemma TallyAgreesIff(st: State, id: VoteId)
    requires Inv(st) && id in st.ending && !st.ending[id].vote.ephemeral
    ensures id in End(st, id).0.stored && !End(st, id).0.stored[id].open
    ensures var result, info := ResultOf(id, st.ending[id].vote), StoredInfo(id, End(st, id).0.stored[id]);
      && (info.votesCast == |result.ballots| <==> st.ending[id].late == [])
      && (info.tally == Some(result.tally) <==> NoneInRange(|result.question.options|, st.ending[id].late))
  {
    assert LocalOk(At(st, id));
    var vote, late, row := st.ending[id].vote, st.ending[id].late, st.stored[id];
    assert multiset(vote.ballots + late) == multiset(row.ballots);
    assert |multiset(vote.ballots + late)| == |multiset(row.ballots)|;
    TallyIgnoresOrder(|row.question.options|, row.ballots, vote.ballots + late);
    ExtraBallotsShowIff(|row.question.options|, vote.ballots, late);
  }

  lemma ClosedRowStays(st: State, e: Event, id: VoteId)
    requires Legal(st, e)
    requires id in st.created && id in st.stored && !st.stored[id].open
    ensures id in Step(st, e).0.created && id in Step(st, e).0.stored && Step(st, e).0.stored[id] == st.stored[id]
  {
    if e.Restarted? { RestartAt(st, e.orders, id); }
  }

  /** A closed vote's row never changes again. */
  lemma ClosedRowsAreFinal(start: State, run: History, last: State, id: VoteId)
    requires IsRun(LeadsTo, start, run, last)
    requires id in start.created && id in start.stored && !start.stored[id].open
    ensures id in last.stored && last.stored[id] == start.stored[id]
  {
    var same := (st: State) => id in st.created && id in st.stored && st.stored[id] == start.stored[id];
    forall st, e, next | same(st) && LeadsTo(st, e, next) ensures same(next) { ClosedRowStays(st, e, id); }
    RunInvariant(LeadsTo, same, start, run, last);
  }

  /** Asked about at any later time, a persistent vote whose last copy missed no ballot
      reports the tally that was broadcast. */
  lemma BroadcastTallyIsFinal(st: State, id: VoteId, run: History, later: State)
    requires Inv(st) && id in st.ending && !st.ending[id].vote.ephemeral && st.ending[id].late == []
    requires IsRun(LeadsTo, End(st, id).0, run, later)
    ensures exists info :: GetStatus(later, id) == Status(info) && !info.open
                           && info.tally == Some(ResultOf(id, st.ending[id].vote).tally)
                           && info.votesCast == |st.ending[id].vote.ballots|
  {
    assert LocalOk(At(st, id));
    var ended := End(st, id).0;
    TallyAgreesIff(st, id);
    EndKeepsInv(st, id);
    RunKeepsInv(ended, run, later);
    ClosedRowsAreFinal(ended, run, later, id);
    ResultsStand(ended, run, later);
    assert ResultOf(id, st.ending[id].vote) == ended.announced[|st.announced|] == later.announced[|st.announced|];
    AnnouncedIsOver(later, ResultOf(id, st.ending[id].vote));
    assert GetStatus(later, id) == Status(StoredInfo(id, later.stored[id]));
  }

  // --- Over whole runs: when every broadcast agrees with the store ---

  predicate Matches(st: State, a: Announcement) {
    a.vote in st.stored ==>
      var info := StoredInfo(a.vote, st.stored[a.vote]);
      info.votesCast == |a.ballots| && info.tally == Some(a.tally)
  }

  predicate AllMatch(st: State) {
    forall a :: a in st.announced ==> Matches(st, a)
  }

  /** The step does not close a persistent vote that misses a ballot. */
  predicate ClosesComplete(st: State, e: Event) {
    e.EndVote? && e.vote in st.ending && !st.ending[e.vote].vote.ephemeral ==> st.ending[e.vote].late == []
  }

  lemma AnnouncedRowStays(st: State, e: Event, a: Announcement)
    requires Inv(st) && Legal(st, e) && a in st.announced
    ensures Matches(Step(st, e).0, a) <==> Matches(st, a)
  {
    AnnouncedIsOver(st, a);
    assert LocalOk(At(st, a.vote));
    if a.vote in st.stored {
      ClosedRowStays(st, e, a.vote);
    } else {
      NoRowStays(st, e, a.vote);
    }
  }

  lemma NoRowStays(st: State, e: Event, id: VoteId)
    requires Legal(st, e) && id in st.created && id !in st.stored
    ensures id !in Step(st, e).0.stored
  {
    if e.Restarted? { RestartAt(st, e.orders, id); }
  }

  lemma EndMatchesIff(st: State, id: VoteId)
    requires Inv(st) && id in st.ending
    ensures Matches(End(st, id).0, ResultOf(id, st.ending[id].vote)) <==> ClosesComplete(st, EndVote(id))
  {
    assert LocalOk(At(st, id));
    if !st.ending[id].vote.ephemeral { TallyAgreesIff(st, id); }
  }

  /** A step keeps every broadcast in agreement with the store exactly if it does not close
      a persistent vote that misses a ballot. */
  lemma StepMatchesIff(st: State, e: Event)
    requires Inv(st) && Legal(st, e) && AllMatch(st)
    ensures AllMatch(Step(st, e).0) <==> ClosesComplete(st, e)
  {
    var after := Step(st, e).0;
    forall a | a in st.announced ensures Matches(after, a) { AnnouncedRowStays(st, e, a); }
    if e.EndVote? {
      EndMatchesIff(st, e.vote);
      assert ResultOf(e.vote, st.ending[e.vote].vote) in after.announced;
    }
  }

  /** In every run, all broadcasts agree with the store at all times exactly if no persistent
      vote was closed while it missed a ballot. */
  lemma BroadcastsMatchIff(run: History, last: State)
    requires IsRun(LeadsTo, EMPTY, run, last)
    ensures (AllMatch(last) && forall i :: 0 <= i < |run| ==> AllMatch(run[i].st)) <==> (forall i :: 0 <= i < |run| ==> ClosesComplete(run[i].st, run[i].e))
  {
    EmptyIsInv();
    forall st, e, next | Inv(st) && LeadsTo(st, e, next)
      ensures Inv(next) && (AllMatch(st) ==> (AllMatch(next) <==> ClosesComplete(st, e)))
    {
      StepKeepsInv(st, e);
      if AllMatch(st) { StepMatchesIff(st, e); }
    }
    ThroughoutIff(LeadsTo, Inv, AllMatch, ClosesComplete, EMPTY, run, last);
  }

  // --- Over whole runs: when every ballot counts ---

  /** Whatever is kept about a vote, its ballots name existing options. */
  predicate CountsAt(l: Local) {
    && (l.opening.Some? ==> InRange(|l.opening.value.question.options|, l.opening.value.ballots))
    && (l.memory.Some? ==> InRange(|l.memory.value.question.options|, l.memory.value.ballots))
    && (l.ending.Some? ==> InRange(|l.ending.value.vote.question.options|, l.ending.value.vote.ballots))
    && (l.stored.Some? ==> InRange(|l.stored.value.question.options|, l.stored.value.ballots))
    && forall a :: a in l.results ==> InRange(|a.question.options|, a.ballots)
  }

  ghost predicate AllCount(st: State) {
    forall id :: CountsAt(At(st, id))
  }

  /** The step persists a ballot that names no option, for a vote that is not in memory. */
  predicate Strays(st: State, e: Event) {
    && e.PersistBallot? && e.vote !in st.memory && Inserts(At(st, e.vote), e.ballot, e.inRoom)
    && e.ballot.option >= |st.stored[e.vote].question.options|
  }

  lemma PersistCountsIff(st: State, e: Event)
    requires Inv(st) && e.PersistBallot? && CountsAt(At(st, e.vote))
    ensures CountsAt(At(Step(st, e).0, e.vote)) <==> !Strays(st, e)
  {
    var l := At(st, e.vote);
    assert LocalOk(l);
    PersistAt(st, e.vote, e.ballot, e.inRoom);
    if Inserts(l, e.ballot, e.inRoom) { InsertedCountsIff(l, e.ballot); }
  }

  lemma InsertedCountsIff(l: Local, b: Ballot)
    requires CountsAt(l) && l.stored.Some?
    ensures CountsAt(Inserted(l, b)) <==> b.option < |l.stored.value.question.options|
  {
    assert b in Inserted(l, b).stored.value.ballots;
  }

  lemma RecordedCounts(l: Local, b: Ballot, pending: seq<Ballot>)
    requires CountsAt(l)
    ensures CountsAt(if Accepts(l, b) then Pushed(l, b, pending) else Overlooked(l, b, pending))
  {
  }

  lemma RecordCounts(st: State, i: nat, id: VoteId)
    requires i < |st.pending| && CountsAt(At(st, id))
    ensures CountsAt(At(Record(st, i).0, id))
  {
    if id == st.pending[i].vote {
      RecordAt(st, i);
      RecordedCounts(At(st, id), st.pending[i].ballot, PendingFor(RemoveAt(st.pending, i), id));
    } else {
      RecordElsewhereAt(st, i, id);
    }
  }

  lemma RestartCounts(st: State, orders: map<VoteId, seq<Ballot>>, id: VoteId)
    requires Legal(st, Restarted(orders)) && CountsAt(At(st, id))
    ensures CountsAt(At(Restart(st, orders), id))
  {
    RestartAt(st, orders, id);
    if id in st.stored {
      forall b | b in Ordered(st, orders, id) ensures b in st.stored[id].ballots {
        assert b in multiset(Ordered(st, orders, id)) && b in multiset(st.stored[id].ballots);
      }
    }
  }

  lemma RemoveCounts(st: State, v: VoteId, reply: Option<Closer>, id: VoteId)
    requires v in st.memory && CountsAt(At(st, id))
    ensures CountsAt(At(Remove(st, v, reply), id))
  {
    if id == v { RemoveHere(st, v, reply); } else { RemoveElsewhere(st, v, reply, id); }
  }

  lemma RemoveFullCounts(st: State, i: nat, id: VoteId)
    requires i < |st.closing| && CountsAt(At(st, id))
    ensures CountsAt(At(RemoveFull(st, i).0, id))
  {
    var c := st.closing[i];
    var rest := st.(closing := RemoveAt(st.closing, i));
    assert CountsAt(At(rest, id));
    if c.vote in st.memory { RemoveCounts(rest, c.vote, Some(c), id); }
  }

  lemma EndCounts(st: State, v: VoteId, id: VoteId)
    requires v in st.ending && CountsAt(At(st, id))
    ensures CountsAt(At(End(st, v).0, id))
  {
    if id == v { EndHere(st, v); } else { EndElsewhere(st, v, id); }
  }

  lemma OpenCounts(st: State, v: VoteId, id: VoteId)
    requires v in st.opening && CountsAt(At(st, id))
    ensures CountsAt(At(Open(st, v).0, id))
  {
    if id == v { OpenHere(st, v); } else { OpenElsewhere(st, v, id); }
  }

  lemma CreateCounts(st: State, e: Event, id: VoteId)
    requires Legal(st, e) && e.CreateVote? && CountsAt(At(st, id))
    ensures CountsAt(At(Step(st, e).0, id))
  {
    if id != e.id { CreateElsewhere(st, e.id, e.question, e.members, e.ephemeral, id); }
  }

  lemma StepCountsAt(st: State, e: Event, id: VoteId)
    requires Inv(st) && Legal(st, e) && CountsAt(At(st, id)) && !Strays(st, e)
    ensures CountsAt(At(Step(st, e).0, id))
  {
    match e
    case CreateVote(_, _, _, _) => CreateCounts(st, e, id);
    case OpenVote(v) => OpenCounts(st, v, id);
    case PersistBallot(v, b, inRoom) =>
      if v == id { PersistCountsIff(st, e); } else { PersistElsewhere(st, v, b, inRoom, id); }
    case RecordBallot(i) => RecordCounts(st, i, id);
    case LastBallotIn(i) => RemoveFullCounts(st, i, id);
    case Deadline(v) => if v in st.memory { RemoveCounts(st, v, None, id); }
    case EndVote(v) => EndCounts(st, v, id);
    case Restarted(orders) => RestartCounts(st, orders, id);
    case AskStatus(_) =>
    case AskList(_) =>
  }

  /** A step keeps every ballot within the options exactly if it does not persist one
      outside them for a vote that is not in memory. */
  lemma StepCountsIff(st: State, e: Event)
    requires Inv(st) && Legal(st, e) && AllCount(st)
    ensures AllCount(Step(st, e).0) <==> !Strays(st, e)
  {
    if Strays(st, e) {
      assert CountsAt(At(st, e.vote));
      PersistCountsIff(st, e);
    } else {
      forall id ensures CountsAt(At(Step(st, e).0, id)) {
        assert CountsAt(At(st, id));
        StepCountsAt(st, e, id);
      }
    }
  }

  /** In every run, every ballot names an option at all times exactly if no step persists
      one that does not for a vote that is not in memory ... */
  lemma AllCountIff(run: History, last: State)
    requires IsRun(LeadsTo, EMPTY, run, last)
    ensures (AllCount(last) && forall i :: 0 <= i < |run| ==> AllCount(run[i].st)) <==> (forall i :: 0 <= i < |run| ==> !Strays(run[i].st, run[i].e))
  {
    EmptyIsInv();
    var keeps := (st: State, e: Event) => !Strays(st, e);
    forall st, e, next | Inv(st) && LeadsTo(st, e, next) ensures Inv(next) && (AllCount(st) ==> (AllCount(next) <==> keeps(st, e))) {
      StepKeepsInv(st, e);
      if AllCount(st) { StepCountsIff(st, e); }
    }
    ThroughoutIff(LeadsTo, Inv, AllCount, keeps, EMPTY, run, last);
  }

  /** ... and then every tally adds up to the ballots cast. */
  lemma TalliesAddUp(run: History, last: State)
    requires IsRun(LeadsTo, EMPTY, run, last)
    requires forall i :: 0 <= i < |run| ==> !Strays(run[i].st, run[i].e)
    ensures forall a :: a in last.announced ==> Sum(a.tally) == |a.ballots|
  {
    AllCountIff(run, last);
    AnnouncedOnceInFull(run, last);
    EmptyIsInv();
    RunKeepsInv(EMPTY, run, last);
    forall a | a in last.announced ensures InRange(|a.question.options|, a.ballots) {
      AnnouncedIsOver(last, a);
      assert CountsAt(At(last, a.vote)) && a in At(last, a.vote).results;
    }
  }
}
