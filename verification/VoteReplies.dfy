/** What callers of the vote handlers are told, and when a vote may close. */
module VoteReplies {
  import opened Wrappers
  import opened Maps
  import opened Runs
  import opened Votes
  import opened VoteTally
  import opened VoteRuns
  import opened VoteResults

  // --- What callers are told ---

  /** Asked about an open vote, the server gives the number of ballots and no tally; about a
      closed one, the number of stored ballots that name each option. */
  lemma StatusTells(st: State, id: VoteId)
    requires id in st.memory || id in st.stored
    ensures GetStatus(st, id).Status?
    ensures var info := GetStatus(st, id).info;
      if id in st.memory then info.open && info.tally.None? && info.votesCast == |st.memory[id].ballots|
      else
        && info.open == st.stored[id].open && info.votesCast == |st.stored[id].ballots|
        && (info.tally.Some? <==> !st.stored[id].open)
        && (info.tally.Some? ==> |info.tally.value| == |info.question.options| && Counts(info.tally.value, st.stored[id].ballots))
  {
    if id !in st.memory { TallyCounts(|st.stored[id].question.options|, st.stored[id].ballots); }
  }

  /** A listing shows exactly what asking about each vote of the room would. */
  lemma ListedIff(st: State, room: RoomId, info: VoteInfo)
    ensures info in ListVotes(st, room).infos <==> info.question.room == room && GetStatus(st, info.id) == Status(info)
  {
  }

  /** A vote is created if and only if its creator is in the room and it has two options; its
      electorate is then exactly the room's members, each with one ballot. */
  lemma CreatedIff(st: State, id: VoteId, q: Question, members: seq<AgentId>, ephemeral: bool)
    requires Inv(st) && Legal(st, CreateVote(id, q, members, ephemeral))
    ensures var (after, out) := Create(st, id, q, members, ephemeral);
      && (id in after.opening <==> q.createdBy in members && |q.options| >= 2)
      && (id !in after.opening ==> after == st && out == [Failed(if q.createdBy in members then InvalidPayload else NotInRoom)])
      && (id in after.opening ==>
            && (forall a :: a in after.opening[id].eligible <==> a in members)
            && after.opening[id].eligibleVoters == |after.opening[id].eligible|
            && (id in after.stored <==> !ephemeral)
            && (!ephemeral ==> after.stored[id].electorate == after.opening[id].eligible && after.stored[id].open))
  {
    assert LocalOk(At(st, id));
    assert At(st, id).opening == Find(st.opening, id) && At(st, id).stored == Find(st.stored, id);
    DistinctCount(members);
  }

  /** A cast gets past its first step if and only if the vote exists, its voter is in the room
      and of the electorate, the option exists if the vote is active, and a persistent vote is
      open and has no ballot of that voter. Otherwise nothing changes. */
  lemma CastGoesOnIff(st: State, id: VoteId, b: Ballot, inRoom: bool)
    requires Inv(st)
    ensures var (after, out) := Persist(st, id, b, inRoom);
      var ephemeral := id in st.memory && st.memory[id].ephemeral;
      && (out == [] <==>
            && inRoom
            && (if id in st.memory then b.agent in st.memory[id].eligible && b.option < |st.memory[id].question.options|
                else id in st.stored && b.agent in st.stored[id].electorate)
            && (!ephemeral ==> id in st.stored && st.stored[id].open && forall x :: x in st.stored[id].ballots ==> x.agent != b.agent))
      && (out == [] ==> after.pending == st.pending + [Cast(id, b)])
      && (out != [] ==> after == st && exists code :: out == [Failed(code)])
  {
    assert LocalOk(At(st, id));
    assert At(st, id).memory == Find(st.memory, id) && At(st, id).stored == Find(st.stored, id);
    if id in st.stored && HasAgent(st.stored[id].ballots, b.agent) {
      var x :| x in st.stored[id].ballots && x.agent == b.agent;
    }
  }

  /** A ballot is recorded if and only if its vote is active, the option exists, and its voter
      is of the electorate and has none recorded; the caller then learns how many there are
      now, at once or, with the last one, when the vote has been removed. */
  lemma RecordedIff(st: State, i: nat)
    requires i < |st.pending|
    ensures var id, b := st.pending[i].vote, st.pending[i].ballot;
      var (after, out) := Record(st, i);
      var takes := id in st.memory && b.option < |st.memory[id].question.options| && b.agent in st.memory[id].eligible
                   && forall x :: x in st.memory[id].ballots ==> x.agent != b.agent;
      if takes then
        var (n, eligible) := (|st.memory[id].ballots| + 1, st.memory[id].eligibleVoters);
        && after.memory == st.memory[id := st.memory[id].(ballots := st.memory[id].ballots + [b])]
        && Recorded(after, id) == Recorded(st, id) + [b]
        && (if n < eligible then out == [CastOk(id, n, eligible)] && after.closing == st.closing
            else out == [] && after.closing == st.closing + [Closer(id, n, eligible)])
      else after.memory == st.memory && after.recorded == st.recorded && after.closing == st.closing && exists code :: out == [Failed(code)]
  {
    var id, b := st.pending[i].vote, st.pending[i].ballot;
    if id in st.memory && HasAgent(st.memory[id].ballots, b.agent) {
      var x :| x in st.memory[id].ballots && x.agent == b.agent;
    }
  }

  /** The caller who cast the last ballot is answered once: now, if the vote is gone already,
      or after the result, by whoever ends the vote in its place. */
  lemma LastCastIsAnswered(st: State, i: nat)
    requires i < |st.closing|
    ensures var c := st.closing[i];
      var (after, out) := RemoveFull(st, i);
      var answer := CastOk(c.vote, c.votesCast, c.eligibleVoters);
      && |after.closing| == |st.closing| - 1
      && (c.vote !in st.memory ==> out == [answer])
      && (c.vote in st.memory ==>
            out == [] && c.vote in after.ending && End(after, c.vote).1 == [Result(ResultOf(c.vote, st.memory[c.vote])), answer])
  {
  }

  // --- No vote closes early ---

  predicate IsFull(ballots: seq<Ballot>, voters: nat, q: Question) {
    |ballots| >= voters || q.deadline.Some?
  }

  /** Whoever closes a vote that has no deadline has all its ballots. */
  ghost predicate Timely(st: State) {
    && (forall c :: c in st.closing ==>
          && c.vote in st.created && c.vote !in st.opening
          && (c.vote in st.memory ==> |st.memory[c.vote].ballots| >= st.memory[c.vote].eligibleVoters))
    && (forall id :: id in st.ending ==> IsFull(st.ending[id].vote.ballots, st.ending[id].vote.eligibleVoters, st.ending[id].vote.question))
    && (forall a :: a in st.announced ==> IsFull(a.ballots, a.eligibleVoters, a.question))
    && (forall id :: id in st.opening || id in st.memory ==> id in st.created)
    && (forall id :: id in st.opening ==> id !in st.memory)
    && (forall id :: id in st.stored ==> id in st.created)
  }

  lemma PushKeepsTimely(st: State, id: VoteId, b: Ballot)
    requires Timely(st) && id in st.memory
    ensures Timely(Push(st, id, b).0)
  {
    var after := Push(st, id, b).0;
    assert forall c :: c in after.closing ==> c in st.closing || (c.vote == id && |after.memory[id].ballots| >= after.memory[id].eligibleVoters);
  }

  lemma UnrecordedKeepsTimely(st: State, after: State)
    requires Timely(st) && after == st.(pending := after.pending, missed := after.missed)
    ensures Timely(after)
  {
  }

  lemma RecordKeepsTimely(st: State, i: nat)
    requires Timely(st) && i < |st.pending|
    ensures Timely(Record(st, i).0)
  {
    var id, b := st.pending[i].vote, st.pending[i].ballot;
    var rest := st.(pending := RemoveAt(st.pending, i));
    UnrecordedKeepsTimely(st, rest);
    UnrecordedKeepsTimely(st, Overlook(rest, id, b));
    if id in st.memory { PushKeepsTimely(rest, id, b); }
  }

  lemma CreateKeepsTimely(st: State, e: Event)
    requires Timely(st) && Legal(st, e) && (e.CreateVote? || e.OpenVote?)
    ensures Timely(Step(st, e).0)
  {
  }

  lemma RemoveKeepsTimely(st: State, id: VoteId, reply: Option<Closer>)
    requires Timely(st) && id in st.memory && IsFull(st.memory[id].ballots, st.memory[id].eligibleVoters, st.memory[id].question)
    ensures Timely(Remove(st, id, reply))
  {
  }

  lemma UnclaimedKeepsTimely(st: State, i: nat)
    requires Timely(st) && i < |st.closing|
    ensures Timely(st.(closing := RemoveAt(st.closing, i)))
  {
  }

  lemma RemoveFullKeepsTimely(st: State, i: nat)
    requires Timely(st) && i < |st.closing|
    ensures Timely(RemoveFull(st, i).0)
  {
    var c := st.closing[i];
    assert c in st.closing;
    UnclaimedKeepsTimely(st, i);
    if c.vote in st.memory { RemoveKeepsTimely(st.(closing := RemoveAt(st.closing, i)), c.vote, Some(c)); }
  }

  lemma EndKeepsTimely(st: State, id: VoteId)
    requires Timely(st) && id in st.ending
    ensures Timely(End(st, id).0)
  {
  }

  lemma RestartKeepsTimely(st: State, orders: map<VoteId, seq<Ballot>>)
    requires Timely(st)
    ensures Timely(Restart(st, orders))
  {
    var after := Restart(st, orders);
    forall id ensures (id in after.memory || id in after.stored) ==> id in st.stored {
      RestartAt(st, orders, id);
      assert At(after, id).memory == Find(after.memory, id) && At(after, id).stored == Find(after.stored, id);
    }
  }

  lemma PersistKeepsTimely(st: State, id: VoteId, b: Ballot, inRoom: bool)
    requires Timely(st)
    ensures Timely(Persist(st, id, b, inRoom).0)
  {
  }

  lemma StepKeepsTimely(st: State, e: Event)
    requires Timely(st) && Legal(st, e)
    ensures Timely(Step(st, e).0)
  {
    match e
    case CreateVote(_, _, _, _) => CreateKeepsTimely(st, e);
    case OpenVote(_) => CreateKeepsTimely(st, e);
    case PersistBallot(id, b, inRoom) => PersistKeepsTimely(st, id, b, inRoom);
    case RecordBallot(i) => RecordKeepsTimely(st, i);
    case LastBallotIn(i) => RemoveFullKeepsTimely(st, i);
    case Deadline(id) => if id in st.memory { RemoveKeepsTimely(st, id, None); }
    case EndVote(id) => EndKeepsTimely(st, id);
    case Restarted(orders) => RestartKeepsTimely(st, orders);
    case _ =>
  }

  /** In every run, a vote without a deadline is announced only with a ballot of every voter. */
  lemma NoEarlyClosing(run: History, st: State)
    requires IsRun(LeadsTo, EMPTY, run, st)
    ensures forall a :: a in st.announced && a.question.deadline.None? ==> |a.ballots| == a.eligibleVoters
  {
    forall s, e, next | Timely(s) && LeadsTo(s, e, next) ensures Timely(next) { StepKeepsTimely(s, e); }
    RunInvariant(LeadsTo, Timely, EMPTY, run, st);
    AnnouncedOnceInFull(run, st);
  }
}
