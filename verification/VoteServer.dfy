/** The vote tables, updated in place by the vote handlers, the deadline timers and start-up. */
module VoteServer {
  import opened Wrappers
  import opened Maps
  import opened Votes
  import VoteTally
  import VoteRuns

  class Server {
    var opening: map<VoteId, ActiveVote>
    var memory: map<VoteId, ActiveVote>
    var stored: map<VoteId, StoredVote>
    var pending: seq<Cast>
    var closing: seq<Closer>
    var ending: map<VoteId, Ending>
    var missed: map<VoteId, seq<Ballot>>
    ghost var created: set<VoteId>
    ghost var announced: seq<Announcement>
    ghost var recorded: map<VoteId, seq<Ballot>>

    ghost function View(): State
      reads this
    {
      State(opening, memory, stored, pending, missed, closing, ending, created, announced, recorded)
    }

    constructor ()
      ensures View() == EMPTY && VoteRuns.Inv(View())
    {
      opening, memory, stored, pending, closing, ending := map[], map[], map[], [], [], map[];
      missed, created, announced, recorded := map[], {}, [], map[];
      new;
      VoteRuns.EmptyIsInv();
    }

    method CreateVote(id: VoteId, q: Question, members: seq<AgentId>, ephemeral: bool) returns (out: seq<Output>)
      modifies this
      ensures (View(), out) == Create(old(View()), id, q, members, ephemeral)
    {
      if q.createdBy !in members { return [Failed(NotInRoom)]; }
      if |q.options| < 2 { return [Failed(InvalidPayload)]; }
      var agents := set a | a in members;
      if !ephemeral {
        stored := stored[id := StoredVote(q, true, |members|, agents, [])];
      }
      var vote := ActiveVote(q, [], |members|, agents, ephemeral);
      opening := opening[id := vote];
      created, recorded := created + {id}, recorded[id := []];
      out := [];
    }

    method OpenVote(id: VoteId) returns (out: seq<Output>)
      requires id in opening
      modifies this`opening, this`memory
      ensures (View(), out) == Open(old(View()), id)
    {
      var vote := opening[id];
      opening := opening - {id};
      memory := memory[id := vote];
      out := [Created(VoteInfo(id, vote.question, true, |vote.ballots|, vote.eligibleVoters, None))];
    }

    /** A cast up to and including its INSERT. */
    method PersistBallot(id: VoteId, ballot: Ballot, inRoom: bool) returns (out: seq<Output>)
      modifies this`stored, this`pending, this`ending
      ensures (View(), out) == Persist(old(View()), id, ballot, inRoom)
    {
      var ephemeral, eligible := false, false;
      var optionCount: Option<nat> := None;
      if id in memory {
        ephemeral := memory[id].ephemeral;
        optionCount := Some(|memory[id].question.options|);
        eligible := ballot.agent in memory[id].eligible;
      } else if id in stored {
        eligible := ballot.agent in stored[id].electorate;
      } else {
        return [Failed(VoteNotFound)];
      }
      if !inRoom { return [Failed(NotInRoom)]; }
      if !eligible { return [Failed(AccessDenied)]; }
      if optionCount.Some? && ballot.option >= optionCount.value { return [Failed(InvalidOption)]; }
      if !ephemeral {
        if id !in stored { return [Failed(VoteNotFound)]; }
        var row := stored[id];
        if !row.open { return [Failed(VoteClosed)]; }
        var voted := Voted(row.ballots, ballot.agent);
        if voted { return [Failed(AlreadyVoted)]; }
        stored := stored[id := row.(ballots := row.ballots + [ballot])];
        ending := Missing(ending, id, ballot);
      }
      pending := pending + [Cast(id, ballot)];
      out := [];
    }

    static method Voted(ballots: seq<Ballot>, agent: AgentId) returns (voted: bool)
      ensures voted == HasAgent(ballots, agent)
    {
      for i := 0 to |ballots|
        invariant forall b :: b in ballots[..i] ==> b.agent != agent
      {
        if ballots[i].agent == agent {
          assert ballots[i] in ballots;
          return true;
        }
        assert ballots[..i + 1] == ballots[..i] + [ballots[i]];
      }
      assert ballots[..|ballots|] == ballots;
      voted := false;
    }

    /** Why a ballot cannot be recorded, if it cannot. */
    method Turns(id: VoteId, ballot: Ballot) returns (away: Option<ErrorCode>)
      ensures away == if id in memory then Refusal(memory[id], ballot) else Some(VoteNotFound)
    {
      if id !in memory { return Some(VoteNotFound); }
      var vote := memory[id];
      if ballot.option >= |vote.question.options| { return Some(InvalidOption); }
      if ballot.agent !in vote.eligible { return Some(AccessDenied); }
      var voted := Voted(vote.ballots, ballot.agent);
      away := if voted then Some(AlreadyVoted) else None;
    }

    /** The locked half of a cast. */
    method RecordBallot(i: nat) returns (out: seq<Output>)
      requires i < |pending|
      modifies this
      ensures (View(), out) == Record(old(View()), i)
    {
      var Cast(id, ballot) := pending[i];
      pending := pending[..i] + pending[i + 1..];
      var refusal := Turns(id, ballot);
      if refusal.Some? {
        if id in stored && (id in opening || id in memory) {
          missed := missed[id := (if id in missed then missed[id] else []) + [ballot]];
        }
        return [Failed(refusal.value)];
      }
      var vote := memory[id];
      var ballots := vote.ballots + [ballot];
      memory := memory[id := vote.(ballots := ballots)];
      recorded := recorded[id := (if id in recorded then recorded[id] else []) + [ballot]];
      if |ballots| >= vote.eligibleVoters {
        closing := closing + [Closer(id, |ballots|, vote.eligibleVoters)];
        out := [];
      } else {
        out := [CastOk(id, |ballots|, vote.eligibleVoters)];
      }
    }

    /** Taking the vote out of memory, for the task that finds it there. */
    method RemoveVote(id: VoteId, reply: Option<Closer>)
      requires id in memory
      modifies this`memory, this`missed, this`ending
      ensures View() == Remove(old(View()), id, reply)
    {
      var late := PendingFor(pending, id) + if id in missed then missed[id] else [];
      ending := ending[id := Ending(memory[id], reply, late)];
      memory, missed := memory - {id}, missed - {id};
    }

    method Deadline(id: VoteId)
      modifies this`memory, this`missed, this`ending
      ensures View() == Expire(old(View()), id)
    {
      if id in memory { RemoveVote(id, None); }
    }

    method LastBallotIn(i: nat) returns (out: seq<Output>)
      requires i < |closing|
      modifies this`closing, this`memory, this`missed, this`ending
      ensures (View(), out) == RemoveFull(old(View()), i)
    {
      var c := closing[i];
      closing := closing[..i] + closing[i + 1..];
      if c.vote in memory {
        RemoveVote(c.vote, Some(c));
        out := [];
      } else {
        out := [CastOk(c.vote, c.votesCast, c.eligibleVoters)];
      }
    }

    /** Counting the ballots of a removed vote, closing its row and broadcasting the result. */
    method EndVote(id: VoteId) returns (out: seq<Output>)
      requires id in ending
      modifies this`ending, this`stored, this`announced
      ensures (View(), out) == End(old(View()), id)
    {
      var vote, reply := ending[id].vote, ending[id].reply;
      ending := ending - {id};
      var tally := VoteTally.BuildTally(|vote.question.options|, vote.ballots);
      var result := Announcement(id, vote.question, tally, vote.ballots, vote.eligibleVoters);
      if !vote.ephemeral && id in stored {
        stored := stored[id := stored[id].(open := false)];
      }
      announced := announced + [result];
      out := [Result(result)];
      if reply.Some? {
        out := out + [CastOk(reply.value.vote, reply.value.votesCast, reply.value.eligibleVoters)];
      } else {
        assert out + [] == out;
      }
    }

    /** Opening the database repairs every row; starting the manager then rebuilds every
        open vote from the ballots its query returns. */
    method RestartServer(orders: map<VoteId, seq<Ballot>>)
      modifies this
      ensures View() == Restart(old(View()), orders)
    {
      ghost var st := View();
      opening, pending, missed, closing, ending := map[], [], map[], [], map[];
      RepairRows();
      ReloadVotes(orders);
      VoteRuns.RestartUnique(st, orders, View());
    }

    method RepairRows()
      modifies this`stored
      ensures stored.Keys == old(stored).Keys
      ensures forall id :: id in stored ==> stored[id] == Repair(old(stored)[id])
    {
      var todo := stored.Keys;
      while todo != {}
        invariant todo <= stored.Keys == old(stored).Keys
        invariant forall id :: id in stored ==> stored[id] == if id in todo then old(stored)[id] else Repair(old(stored)[id])
        decreases todo
      {
        var id :| id in todo;
        todo := todo - {id};
        stored := stored[id := Repair(stored[id])];
      }
    }

    method ReloadVotes(orders: map<VoteId, seq<Ballot>>)
      modifies this`memory
      ensures forall id :: id in memory <==> id in stored && stored[id].open
      ensures forall id :: id in memory ==>
        memory[id] == Reload(stored[id], if id in orders then orders[id] else stored[id].ballots)
    {
      memory := map[];
      var todo := stored.Keys;
      while todo != {}
        invariant todo <= stored.Keys
        invariant forall id :: id in memory <==> id in stored && id !in todo && stored[id].open
        invariant forall id :: id in memory ==>
          memory[id] == Reload(stored[id], if id in orders then orders[id] else stored[id].ballots)
        decreases todo
      {
        var id :| id in todo;
        todo := todo - {id};
        if stored[id].open {
          var ballots := if id in orders then orders[id] else stored[id].ballots;
          memory := memory[id := Reload(stored[id], ballots)];
        }
      }
    }

    /** The status query counts a closed vote's stored ballots afresh. */
    method Status(id: VoteId) returns (out: Output)
      ensures out == GetStatus(View(), id)
    {
      if id in memory { return Output.Status(InfoOf(id, memory[id])); }
      if id !in stored { return Failed(VoteNotFound); }
      var row := stored[id];
      var tally: Option<seq<nat>> := None;
      if !row.open {
        var counts := VoteTally.BuildTally(|row.question.options|, row.ballots);
        tally := Some(counts);
      }
      out := Output.Status(VoteInfo(id, row.question, row.open, |row.ballots|, row.eligibleVoters, tally));
    }
  }
}
