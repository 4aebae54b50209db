/** What every run of the voting protocol keeps. */
module VoteRuns {
  import opened Wrappers
  import opened Maps
  import opened Sequences
  import opened Runs
  import opened Votes
  import opened VoteTally

  // --- The invariant ---

  /** Distinct voters, all of them entitled. */
  ghost predicate BallotsOk(ballots: multiset<Ballot>, voters: set<AgentId>) {
    && (forall b :: b in ballots ==> ballots[b] == 1 && b.agent in voters)
    && (forall b, c :: b in ballots && c in ballots && b.agent == c.agent ==> b == c)
  }

  ghost predicate ActiveOk(vote: ActiveVote) {
    && |vote.question.options| >= 2
    && vote.question.createdBy in vote.eligible
    && vote.eligibleVoters == |vote.eligible|
    && BallotsOk(multiset(vote.ballots), vote.eligible)
  }

  ghost predicate StoredOk(row: StoredVote) {
    && |row.question.options| >= 2
    && row.question.createdBy in row.electorate
    && row.eligibleVoters == |row.electorate|
    && BallotsOk(multiset(row.ballots), row.electorate)
  }

  function ResultFor(id: VoteId): Announcement -> seq<Announcement> {
    (a: Announcement) => if a.vote == id then [a] else []
  }

  function ResultsFor(announced: seq<Announcement>, id: VoteId): seq<Announcement> {
    Join(ResultFor(id), announced)
  }

  predicate IsClosing(closing: seq<Closer>, id: VoteId) {
    exists c :: c in closing && c.vote == id
  }

  /** Everything the server holds about one vote. */
  datatype Local = Local(
    opening: Option<ActiveVote>, memory: Option<ActiveVote>, ending: Option<Ending>, stored: Option<StoredVote>,
    pending: seq<Ballot>, missed: seq<Ballot>, closing: bool, created: bool, results: seq<Announcement>, recorded: seq<Ballot>)

  function At(st: State, id: VoteId): Local {
    Local(Find(st.opening, id), Find(st.memory, id), Find(st.ending, id), Find(st.stored, id),
          PendingFor(st.pending, id), MissedFor(st, id), IsClosing(st.closing, id), id in st.created, ResultsFor(st.announced, id), Recorded(st, id))
  }

  /** A persistent vote that is not closed agrees with its row, up to the given ballots. */
  ghost predicate Agree(vote: ActiveVote, row: StoredVote, missing: seq<Ballot>) {
    && row.open
    && vote.question == row.question
    && vote.eligibleVoters == row.eligibleVoters
    && vote.eligible == row.electorate
    && multiset(row.ballots) == multiset(vote.ballots) + multiset(missing)
  }

  /** A vote that is opening, active or ending is sound, holds every ballot recorded for it, has no
      result yet, and is mirrored by its row if it is persistent. */
  ghost predicate VoteOk(l: Local, vote: ActiveVote, missing: seq<Ballot>) {
    && l.created && ActiveOk(vote) && l.results == []
    && multiset(l.recorded) <= multiset(vote.ballots)
    && (if vote.ephemeral then l.stored.None? else l.stored.Some? && Agree(vote, l.stored.value, missing))
  }

  /** A vote that is not yet in memory has no ballot there, so it misses every stored one. */
  ghost predicate OpeningOk(l: Local)
    requires l.opening.Some?
  {
    && VoteOk(l, l.opening.value, l.pending + l.missed) && l.opening.value.ballots == []
    && l.memory.None? && l.ending.None?
  }

  /** An active vote misses the casts between their two steps and those that failed; once it
      is full some task is about to remove it. */
  ghost predicate MemoryOk(l: Local)
    requires l.memory.Some?
  {
    var vote := l.memory.value;
    && VoteOk(l, vote, l.pending + l.missed) && l.ending.None?
    && (|vote.ballots| >= vote.eligibleVoters ==> l.closing)
  }

  predicate IsPersistent(vote: Option<ActiveVote>) {
    vote.Some? && !vote.value.ephemeral
  }

  /** A stored vote is sound, and open only while it is opening, active or ending. */
  ghost predicate RowOk(l: Local)
    requires l.stored.Some?
  {
    && l.created && StoredOk(l.stored.value)
    && (l.stored.value.open ==>
          IsPersistent(l.opening) || IsPersistent(l.memory) || (l.ending.Some? && !l.ending.value.vote.ephemeral))
  }

  /** A result is broadcast at most once, closes the vote for good, is counted right, and
      contains every ballot that was ever recorded. */
  ghost predicate ResultOk(l: Local) {
    && |l.results| <= 1
    && (l.results != [] ==>
          var a := l.results[0];
          && l.opening.None? && l.memory.None? && l.ending.None? && (l.stored.Some? ==> !l.stored.value.open)
          && a.tally == Tally(|a.question.options|, a.ballots) && |a.ballots| <= a.eligibleVoters
          && multiset(l.recorded) <= multiset(a.ballots))
  }

  ghost predicate LocalOk(l: Local) {
    && (l.opening.Some? ==> OpeningOk(l))
    && (l.memory.Some? ==> MemoryOk(l))
    && (l.ending.Some? ==> VoteOk(l, l.ending.value.vote, l.ending.value.late))
    && (l.stored.Some? ==> RowOk(l))
    && ResultOk(l)
    && (!l.created ==> l.pending == [] && l.results == [])
    && (!IsPersistent(l.opening) && !IsPersistent(l.memory) ==> l.missed == [])
  }

  ghost predicate Inv(st: State) {
    forall id :: LocalOk(At(st, id))
  }

  lemma EmptyIsInv()
    ensures Inv(EMPTY)
  {
  }

  // --- Counting facts ---

  lemma {:induction false} NoMoreBallotsThanVoters(ballots: seq<Ballot>, voters: set<AgentId>)
    requires BallotsOk(multiset(ballots), voters)
    ensures |ballots| <= |voters|
    decreases ballots
  {
    assert forall b :: b in ballots ==> b in multiset(ballots);
    if ballots != [] {
      var first, rest := ballots[0], ballots[1..];
      assert ballots == [first] + rest;
      assert multiset(ballots) == multiset{first} + multiset(rest);
      assert first in multiset(ballots) && multiset(ballots)[first] == 1;
      forall b: Ballot | b in multiset(rest) ensures multiset(rest)[b] == 1 && b.agent in voters - {first.agent} {
        assert b in multiset(ballots);
      }
      NoMoreBallotsThanVoters(rest, voters - {first.agent});
    }
  }

  lemma PendingAppend(pending: seq<Cast>, c: Cast, id: VoteId)
    ensures PendingFor(pending + [c], id) == PendingFor(pending, id) + if c.vote == id then [c.ballot] else []
  {
    JoinAppend(CastFor(id), pending, c);
  }

  lemma PendingRemove(pending: seq<Cast>, i: nat, id: VoteId)
    requires i < |pending|
    ensures multiset(PendingFor(pending, id))
         == multiset(PendingFor(RemoveAt(pending, i), id)) + if pending[i].vote == id then multiset{pending[i].ballot} else multiset{}
  {
    JoinRemoveAt(CastFor(id), pending, i);
  }

  /** One more ballot from a voter who has none. */
  lemma BallotAdded(ballots: seq<Ballot>, b: Ballot, voters: set<AgentId>)
    requires BallotsOk(multiset(ballots), voters)
    requires b.agent in voters && !HasAgent(ballots, b.agent)
    ensures BallotsOk(multiset(ballots + [b]), voters)
  {
    assert b !in ballots;
    assert multiset(ballots + [b]) == multiset(ballots) + multiset{b};
    assert forall c :: c in multiset(ballots) ==> c in ballots;
  }

  // --- Steps ---

  lemma CreateElsewhere(st: State, id: VoteId, q: Question, members: seq<AgentId>, ephemeral: bool, i: VoteId)
    requires i != id
    ensures At(Create(st, id, q, members, ephemeral).0, i) == At(st, i)
  {
  }

  /** What creating does to its vote. */
  function CreatedAs(l: Local, q: Question, members: seq<AgentId>, ephemeral: bool): Local {
    l.(opening := Some(ActiveVote(q, [], |members|, Elements(members), ephemeral)),
       stored := if ephemeral then l.stored else Some(StoredVote(q, true, |members|, Elements(members), [])),
       created := true, recorded := [])
  }

  lemma CreateAt(st: State, id: VoteId, q: Question, members: seq<AgentId>, ephemeral: bool)
    ensures At(Create(st, id, q, members, ephemeral).0, id) ==
      if q.createdBy in members && |q.options| >= 2 then CreatedAs(At(st, id), q, members, ephemeral) else At(st, id)
  {
  }

  lemma CreateLocal(l: Local, q: Question, members: seq<AgentId>, ephemeral: bool)
    requires LocalOk(l) && !l.created && q.createdBy in members && |q.options| >= 2
    requires forall i, j :: 0 <= i < j < |members| ==> members[i] != members[j]
    ensures LocalOk(CreatedAs(l, q, members, ephemeral))
  {
    DistinctCount(members);
  }

  lemma CreateHere(st: State, id: VoteId, q: Question, members: seq<AgentId>, ephemeral: bool)
    requires LocalOk(At(st, id)) && Legal(st, CreateVote(id, q, members, ephemeral))
    ensures LocalOk(At(Create(st, id, q, members, ephemeral).0, id))
  {
    CreateAt(st, id, q, members, ephemeral);
    if q.createdBy in members && |q.options| >= 2 { CreateLocal(At(st, id), q, members, ephemeral); }
  }

  lemma CreateKeepsInv(st: State, id: VoteId, q: Question, members: seq<AgentId>, ephemeral: bool)
    requires Inv(st) && Legal(st, CreateVote(id, q, members, ephemeral))
    ensures Inv(Create(st, id, q, members, ephemeral).0)
  {
    forall i ensures LocalOk(At(Create(st, id, q, members, ephemeral).0, i)) {
      assert LocalOk(At(st, i));
      if i == id { CreateHere(st, id, q, members, ephemeral); } else { CreateElsewhere(st, id, q, members, ephemeral, i); }
    }
  }

  lemma OpenElsewhere(st: State, id: VoteId, i: VoteId)
    requires id in st.opening && i != id
    ensures At(Open(st, id).0, i) == At(st, i)
  {
  }

  lemma OpenHere(st: State, id: VoteId)
    requires id in st.opening
    ensures At(Open(st, id).0, id) == At(st, id).(opening := None, memory := Some(st.opening[id]))
  {
  }

  lemma OpenKeepsInv(st: State, id: VoteId)
    requires Inv(st) && id in st.opening
    ensures Inv(Open(st, id).0)
  {
    forall i ensures LocalOk(At(Open(st, id).0, i)) {
      assert LocalOk(At(st, i));
      if i == id { OpenHere(st, id); } else { OpenElsewhere(st, id, i); }
    }
  }

  lemma {:induction false} DistinctCount<T>(s: seq<T>)
    requires forall i, j :: 0 <= i < j < |s| ==> s[i] != s[j]
    ensures |Elements(s)| == |s|
  {
    if s != [] {
      DistinctCount(s[1..]);
      assert Elements(s) == {s[0]} + Elements(s[1..]);
    }
  }

  /** What inserting a ballot row does to its vote. */
  function Inserted(l: Local, b: Ballot): Local
    requires l.stored.Some?
  {
    l.(stored := Some(l.stored.value.(ballots := l.stored.value.ballots + [b])), pending := l.pending + [b],
       ending := if l.ending.Some? then Some(l.ending.value.(late := l.ending.value.late + [b])) else None)
  }

  lemma OneMoreMissing(vote: ActiveVote, row: StoredVote, missing: seq<Ballot>, b: Ballot, after: seq<Ballot>)
    requires Agree(vote, row, missing) && multiset(after) == multiset(missing) + multiset{b}
    ensures Agree(vote, row.(ballots := row.ballots + [b]), after)
  {
    assert multiset(row.ballots + [b]) == multiset(row.ballots) + multiset{b};
  }

  /** Inserting a voter's first ballot row. */
  lemma PersistLocal(l: Local, b: Ballot)
    requires LocalOk(l) && l.stored.Some? && l.stored.value.open
    requires b.agent in l.stored.value.electorate && !HasAgent(l.stored.value.ballots, b.agent)
    ensures LocalOk(Inserted(l, b))
  {
    var row := l.stored.value;
    BallotAdded(row.ballots, b, row.electorate);
    if l.ending.Some? {
      OneMoreMissing(l.ending.value.vote, row, l.ending.value.late, b, l.ending.value.late + [b]);
    } else {
      var vote := if l.memory.Some? then l.memory.value else l.opening.value;
      assert multiset(l.pending + [b] + l.missed) == multiset(l.pending + l.missed) + multiset{b};
      OneMoreMissing(vote, row, l.pending + l.missed, b, l.pending + [b] + l.missed);
    }
  }

  lemma PersistElsewhere(st: State, id: VoteId, b: Ballot, inRoom: bool, i: VoteId)
    requires i != id
    ensures At(Persist(st, id, b, inRoom).0, i) == At(st, i)
  {
    PendingAppend(st.pending, Cast(id, b), i);
    InsertElsewhere(st, id, b, i);
  }

  lemma InsertElsewhere(st: State, id: VoteId, b: Ballot, i: VoteId)
    requires i != id
    ensures At(InsertBallot(st, id, b).0, i) == At(st, i)
  {
    PendingAppend(st.pending, Cast(id, b), i);
  }

  /** The checks that precede an INSERT, and those it makes itself, pass. */
  predicate Inserts(l: Local, b: Ballot, inRoom: bool) {
    && inRoom && l.stored.Some? && l.stored.value.open && !HasAgent(l.stored.value.ballots, b.agent)
    && (if l.memory.Some? then MayCast(l.memory.value, b) && !l.memory.value.ephemeral else b.agent in l.stored.value.electorate)
  }

  predicate MayCast(vote: ActiveVote, b: Ballot) {
    b.agent in vote.eligible && b.option < |vote.question.options|
  }

  lemma PersistAt(st: State, id: VoteId, b: Ballot, inRoom: bool)
    ensures var l := At(st, id);
      At(Persist(st, id, b, inRoom).0, id) ==
        if Inserts(l, b, inRoom) then Inserted(l, b)
        else if inRoom && l.memory.Some? && l.memory.value.ephemeral && MayCast(l.memory.value, b) then l.(pending := l.pending + [b])
        else l
  {
    PendingAppend(st.pending, Cast(id, b), id);
    InsertAt(st, id, b);
  }

  lemma InsertAt(st: State, id: VoteId, b: Ballot)
    ensures var l := At(st, id);
      At(InsertBallot(st, id, b).0, id) ==
        if l.stored.Some? && l.stored.value.open && !HasAgent(l.stored.value.ballots, b.agent) then Inserted(l, b) else l
  {
    PendingAppend(st.pending, Cast(id, b), id);
  }

  lemma PersistHere(st: State, id: VoteId, b: Ballot, inRoom: bool)
    requires LocalOk(At(st, id))
    ensures LocalOk(At(Persist(st, id, b, inRoom).0, id))
  {
    PersistAt(st, id, b, inRoom);
    if Inserts(At(st, id), b, inRoom) { PersistLocal(At(st, id), b); }
  }

  lemma PersistKeepsInv(st: State, id: VoteId, b: Ballot, inRoom: bool)
    requires Inv(st)
    ensures Inv(Persist(st, id, b, inRoom).0)
  {
    forall i ensures LocalOk(At(Persist(st, id, b, inRoom).0, i)) {
      assert LocalOk(At(st, i));
      if i == id { PersistHere(st, id, b, inRoom); } else { PersistElsewhere(st, id, b, inRoom, i); }
    }
  }

  /** Recording a pending ballot of a persistent vote can fail only for its option. */
  lemma PendingIsRecordable(l: Local, b: Ballot)
    requires LocalOk(l) && l.memory.Some? && !l.memory.value.ephemeral
    requires b in l.pending
    ensures b.agent in l.memory.value.eligible && !HasAgent(l.memory.value.ballots, b.agent)
  {
    var stored, active := multiset(l.stored.value.ballots), multiset(l.memory.value.ballots);
    assert b in l.pending + l.missed;
    assert b in multiset(l.pending + l.missed) && b in stored && stored[b] == 1;
    forall c | c in l.memory.value.ballots ensures c.agent != b.agent {
      assert c in active && c in stored;
      assert c == b ==> stored[b] >= 2;
    }
  }

  lemma PushLocal(l: Local, b: Ballot, pending: seq<Ballot>)
    requires LocalOk(l) && Accepts(l, b)
    requires multiset(l.pending) == multiset(pending) + multiset{b}
    ensures LocalOk(Pushed(l, b, pending))
  {
    var vote := l.memory.value;
    BallotAdded(vote.ballots, b, vote.eligible);
    assert multiset(vote.ballots + [b]) == multiset(vote.ballots) + multiset{b};
    assert multiset(l.recorded + [b]) == multiset(l.recorded) + multiset{b};
    assert multiset(l.pending + l.missed) == multiset(pending + l.missed) + multiset{b};
  }

  lemma PendingHere(pending: seq<Cast>, i: nat)
    requires i < |pending|
    ensures pending[i].ballot in PendingFor(pending, pending[i].vote)
  {
    JoinMembers(CastFor(pending[i].vote), pending);
    assert pending[i] in pending && pending[i].ballot in CastFor(pending[i].vote)(pending[i]);
  }

  lemma PendingReordered(l: Local, pending: seq<Ballot>)
    requires LocalOk(l) && multiset(pending) == multiset(l.pending)
    ensures LocalOk(l.(pending := pending))
  {
    assert multiset(pending + l.missed) == multiset(l.pending + l.missed);
    assert pending != [] ==> pending[0] in multiset(l.pending);
  }

  lemma PushElsewhere(st: State, id: VoteId, b: Ballot, j: VoteId)
    requires id in st.memory && j != id
    ensures At(Push(st, id, b).0, j) == At(st, j)
  {
    ClosingAppend(st.closing, Push(st, id, b).0.closing, j);
  }

  lemma RecordElsewhereAt(st: State, i: nat, j: VoteId)
    requires i < |st.pending| && j != st.pending[i].vote
    ensures At(Record(st, i).0, j) == At(st, j).(pending := PendingFor(RemoveAt(st.pending, i), j))
  {
    var rest := st.(pending := RemoveAt(st.pending, i));
    OverlookElsewhere(rest, st.pending[i].vote, st.pending[i].ballot, j);
    if st.pending[i].vote in st.memory { PushElsewhere(rest, st.pending[i].vote, st.pending[i].ballot, j); }
    PendingElsewhere(st, rest.pending, j);
  }

  lemma PendingElsewhere(st: State, pending: seq<Cast>, j: VoteId)
    ensures At(st.(pending := pending), j) == At(st, j).(pending := PendingFor(pending, j))
  {
  }

  lemma OverlookElsewhere(st: State, id: VoteId, b: Ballot, j: VoteId)
    requires j != id
    ensures At(Overlook(st, id, b), j) == At(st, j)
  {
  }

  lemma OverlookHere(st: State, id: VoteId, b: Ballot)
    ensures At(Overlook(st, id, b), id) == Overlooked(At(st, id), b, At(st, id).pending)
  {
  }

  lemma RecordElsewhere(st: State, i: nat, j: VoteId)
    requires i < |st.pending| && j != st.pending[i].vote
    requires LocalOk(At(st, j))
    ensures LocalOk(At(Record(st, i).0, j))
  {
    PendingRemove(st.pending, i, j);
    RecordElsewhereAt(st, i, j);
    PendingReordered(At(st, j), PendingFor(RemoveAt(st.pending, i), j));
  }

  lemma ClosingAppend(closing: seq<Closer>, after: seq<Closer>, j: VoteId)
    requires after == closing || (|after| == |closing| + 1 && after[..|closing|] == closing && after[|closing|].vote != j)
    ensures IsClosing(after, j) == IsClosing(closing, j)
  {
    if after != closing {
      assert after == closing + [after[|closing|]];
    }
  }

  lemma PushHere(st: State, id: VoteId, b: Ballot)
    requires id in st.memory
    ensures var l, vote := At(st, id), st.memory[id];
      At(Push(st, id, b).0, id) == l.(memory := Some(vote.(ballots := vote.ballots + [b])), recorded := l.recorded + [b],
                                      closing := l.closing || |vote.ballots| + 1 >= vote.eligibleVoters)
  {
    var after := Push(st, id, b).0;
    if after.closing != st.closing {
      assert after.closing[|st.closing|] in after.closing;
    }
  }

  predicate Accepts(l: Local, b: Ballot) {
    l.memory.Some? && Refusal(l.memory.value, b).None?
  }

  /** What recording a ballot does to its vote. */
  function Pushed(l: Local, b: Ballot, pending: seq<Ballot>): Local
    requires l.memory.Some?
  {
    var vote := l.memory.value;
    l.(memory := Some(vote.(ballots := vote.ballots + [b])), pending := pending, recorded := l.recorded + [b],
       closing := l.closing || |vote.ballots| + 1 >= vote.eligibleVoters)
  }

  /** What a failed cast leaves behind. */
  function Overlooked(l: Local, b: Ballot, pending: seq<Ballot>): Local {
    l.(pending := pending, missed := if l.stored.Some? && (l.opening.Some? || l.memory.Some?) then l.missed + [b] else l.missed)
  }

  lemma RecordAt(st: State, i: nat)
    requires i < |st.pending|
    ensures var id, b := st.pending[i].vote, st.pending[i].ballot;
      var l, pending := At(st, id), PendingFor(RemoveAt(st.pending, i), id);
      At(Record(st, i).0, id) == if Accepts(l, b) then Pushed(l, b, pending) else Overlooked(l, b, pending)
  {
    var id, b := st.pending[i].vote, st.pending[i].ballot;
    var rest := st.(pending := RemoveAt(st.pending, i));
    PendingElsewhere(st, rest.pending, id);
    OverlookHere(rest, id, b);
    if id in st.memory { PushHere(rest, id, b); }
  }

  /** One pending cast fewer, and one ballot more if the vote accepts it. */
  lemma RecordLocal(l: Local, b: Ballot, pending: seq<Ballot>)
    requires LocalOk(l) && b in l.pending
    requires multiset(l.pending) == multiset(pending) + multiset{b}
    ensures LocalOk(if Accepts(l, b) then Pushed(l, b, pending) else Overlooked(l, b, pending))
  {
    if Accepts(l, b) { PushLocal(l, b, pending); } else { OverlookLocal(l, b, pending); }
  }

  lemma OverlookLocal(l: Local, b: Ballot, pending: seq<Ballot>)
    requires LocalOk(l) && b in l.pending
    requires multiset(l.pending) == multiset(pending) + multiset{b}
    ensures LocalOk(Overlooked(l, b, pending))
  {
    assert multiset(pending + (l.missed + [b])) == multiset(l.pending + l.missed);
  }

  lemma RecordHere(st: State, i: nat)
    requires i < |st.pending|
    requires LocalOk(At(st, st.pending[i].vote))
    ensures LocalOk(At(Record(st, i).0, st.pending[i].vote))
  {
    var Cast(id, b) := st.pending[i];
    PendingRemove(st.pending, i, id);
    PendingHere(st.pending, i);
    RecordAt(st, i);
    RecordLocal(At(st, id), b, PendingFor(RemoveAt(st.pending, i), id));
  }

  lemma RecordKeepsInv(st: State, i: nat)
    requires Inv(st) && i < |st.pending|
    ensures Inv(Record(st, i).0)
  {
    forall j ensures LocalOk(At(Record(st, i).0, j)) {
      assert LocalOk(At(st, j));
      if j == st.pending[i].vote { RecordHere(st, i); } else { RecordElsewhere(st, i, j); }
    }
  }

  // Closing

  lemma RemoveElsewhere(st: State, id: VoteId, reply: Option<Closer>, i: VoteId)
    requires id in st.memory && i != id
    ensures At(Remove(st, id, reply), i) == At(st, i)
  {
  }

  lemma RemoveHere(st: State, id: VoteId, reply: Option<Closer>)
    requires id in st.memory
    ensures At(Remove(st, id, reply), id) ==
      At(st, id).(memory := None, missed := [],
                  ending := Some(Ending(st.memory[id], reply, PendingFor(st.pending, id) + MissedFor(st, id))))
  {
  }

  lemma RemoveKeepsLocal(st: State, id: VoteId, reply: Option<Closer>, i: VoteId)
    requires id in st.memory && LocalOk(At(st, i))
    ensures LocalOk(At(Remove(st, id, reply), i))
  {
    if i == id { RemoveHere(st, id, reply); } else { RemoveElsewhere(st, id, reply, i); }
  }

  lemma ExpireKeepsInv(st: State, id: VoteId)
    requires Inv(st)
    ensures Inv(Expire(st, id))
  {
    forall i ensures LocalOk(At(Expire(st, id), i)) {
      assert LocalOk(At(st, i));
      if id in st.memory { RemoveKeepsLocal(st, id, None, i); }
    }
  }

  lemma ClosingRemoved(closing: seq<Closer>, i: nat, j: VoteId)
    requires i < |closing| && closing[i].vote != j
    ensures IsClosing(RemoveAt(closing, i), j) == IsClosing(closing, j)
  {
    assert closing == closing[..i] + [closing[i]] + closing[i + 1..];
  }

  /** The task gives up its claim ... */
  lemma UnclaimedAt(st: State, closing: seq<Closer>, j: VoteId)
    ensures At(st.(closing := closing), j) == At(st, j).(closing := IsClosing(closing, j))
  {
  }

  /** ... and removes the vote in one go. */
  lemma RemoveFullAt(st: State, i: nat, j: VoteId)
    requires i < |st.closing| && LocalOk(At(st, j))
    ensures LocalOk(At(RemoveFull(st, i).0, j))
  {
    var c := st.closing[i];
    var rest := st.(closing := RemoveAt(st.closing, i));
    UnclaimedAt(st, rest.closing, j);
    if j == c.vote {
      if j in st.memory { RemoveHere(rest, j, Some(c)); }
    } else {
      ClosingRemoved(st.closing, i, j);
      if c.vote in st.memory { RemoveElsewhere(rest, c.vote, Some(c), j); }
    }
  }

  lemma RemoveFullKeepsInv(st: State, i: nat)
    requires Inv(st) && i < |st.closing|
    ensures Inv(RemoveFull(st, i).0)
  {
    forall j ensures LocalOk(At(RemoveFull(st, i).0, j)) {
      assert LocalOk(At(st, j));
      RemoveFullAt(st, i, j);
    }
  }

  /** What closing the row and announcing the result does to a vote. */
  function Ended(l: Local, id: VoteId): Local
    requires l.ending.Some?
  {
    var vote := l.ending.value.vote;
    l.(ending := None, results := l.results + [ResultOf(id, vote)],
       stored := if !vote.ephemeral && l.stored.Some? then Some(l.stored.value.(open := false)) else l.stored)
  }

  lemma EndLocal(l: Local, id: VoteId)
    requires LocalOk(l) && l.ending.Some?
    ensures LocalOk(Ended(l, id))
  {
    var vote := l.ending.value.vote;
    NoMoreBallotsThanVoters(vote.ballots, vote.eligible);
  }

  lemma EndElsewhere(st: State, id: VoteId, i: VoteId)
    requires id in st.ending && i != id
    ensures At(End(st, id).0, i) == At(st, i)
  {
    JoinAppend(ResultFor(i), st.announced, ResultOf(id, st.ending[id].vote));
  }

  lemma EndHere(st: State, id: VoteId)
    requires id in st.ending
    ensures At(End(st, id).0, id) == Ended(At(st, id), id)
  {
    JoinAppend(ResultFor(id), st.announced, ResultOf(id, st.ending[id].vote));
  }

  lemma EndKeepsInv(st: State, id: VoteId)
    requires Inv(st) && id in st.ending
    ensures Inv(End(st, id).0)
  {
    forall i ensures LocalOk(At(End(st, id).0, i)) {
      assert LocalOk(At(st, i));
      if i == id {
        EndHere(st, id);
        EndLocal(At(st, id), id);
      } else {
        EndElsewhere(st, id, i);
      }
    }
  }

  // Restarting

  /** On any stored vote, however old, whose ballots come from distinct voters: repair
      leaves an open vote with its creator and voters in the electorate, counted right,
      and fewer ballots than voters. */
  lemma RepairSound(row: StoredVote)
    ensures Repair(row).ballots == row.ballots && Repair(row).question == row.question
    ensures Repair(row).open ==> row.open
    ensures Repair(row).open ==>
      var fixed := Repair(row);
      && fixed.question.createdBy in fixed.electorate && Voters(row.ballots) <= fixed.electorate
      && fixed.eligibleVoters == |fixed.electorate| > |fixed.ballots|
  {
    var fixed := Repair(row);
    if fixed.open { assert row.question.createdBy in fixed.electorate && |fixed.electorate| > 0; }
  }

  /** On a row the server wrote, repair changes nothing except closing a full vote. */
  lemma RepairIsIdle(row: StoredVote)
    requires StoredOk(row)
    ensures Repair(row) == row.(open := row.open && |row.ballots| < row.eligibleVoters)
  {
    forall a | a in Voters(row.ballots) ensures a in row.electorate {
      var b :| b in row.ballots && b.agent == a;
      assert b in multiset(row.ballots);
    }
    assert row.electorate + {row.question.createdBy} + Voters(row.ballots) == row.electorate;
    assert |row.electorate| > 0;
  }

  /** After a restart, memory is rebuilt from the rows; casts between their steps count. */
  lemma RestartLocal(l: Local, order: seq<Ballot>)
    requires LocalOk(l)
    requires l.stored.Some? ==> multiset(order) == multiset(l.stored.value.ballots)
    ensures var row := if l.stored.Some? then Some(Repair(l.stored.value)) else None;
      LocalOk(l.(stored := row, memory := if row.Some? && row.value.open then Some(Reload(row.value, order)) else None,
                 opening := None, pending := [], missed := [], closing := false, ending := None))
  {
    if l.stored.Some? {
      RepairIsIdle(l.stored.value);
      assert |multiset(order)| == |order|;
    }
  }

  lemma RestartAt(st: State, orders: map<VoteId, seq<Ballot>>, id: VoteId)
    ensures At(Restart(st, orders), id) ==
      var l := At(st, id);
      var row := if l.stored.Some? then Some(Repair(l.stored.value)) else None;
      l.(stored := row,
         memory := if row.Some? && row.value.open then Some(Reload(row.value, Ordered(st, orders, id))) else None,
         opening := None, pending := [], missed := [], closing := false, ending := None)
  {
    TabulateExact(st.stored.Keys, id => Repaired(st, id));
    TabulateExact((set i | i in st.stored && Repaired(st, i).open), id => Reload(Repaired(st, id), Ordered(st, orders, id)));
  }

  /** The tables a restart must leave behind. */
  lemma RestartUnique(st: State, orders: map<VoteId, seq<Ballot>>, after: State)
    requires after == st.(memory := after.memory, stored := after.stored, opening := map[], pending := [], missed := map[], closing := [], ending := map[])
    requires after.stored.Keys == st.stored.Keys && forall id :: id in after.stored ==> after.stored[id] == Repair(st.stored[id])
    requires forall id :: id in after.memory <==> id in after.stored && after.stored[id].open
    requires forall id :: id in after.memory ==>
      after.memory[id] == Reload(after.stored[id], if id in orders then orders[id] else after.stored[id].ballots)
    ensures after == Restart(st, orders)
  {
    var expected := Restart(st, orders);
    forall id
      ensures Find(expected.stored, id) == Find(after.stored, id)
      ensures Find(expected.memory, id) == Find(after.memory, id)
    {
      RestartUniqueAt(st, orders, after, id);
    }
    SameEntries(expected.stored, after.stored);
    SameEntries(expected.memory, after.memory);
  }

  lemma RestartUniqueAt(st: State, orders: map<VoteId, seq<Ballot>>, after: State, id: VoteId)
    requires id in after.stored <==> id in st.stored
    requires id in after.stored ==> after.stored[id] == Repair(st.stored[id])
    requires id in after.memory <==> id in after.stored && after.stored[id].open
    requires id in after.memory ==>
      after.memory[id] == Reload(after.stored[id], if id in orders then orders[id] else after.stored[id].ballots)
    ensures Find(Restart(st, orders).stored, id) == Find(after.stored, id)
    ensures Find(Restart(st, orders).memory, id) == Find(after.memory, id)
  {
    RestartAt(st, orders, id);
    var l := At(Restart(st, orders), id);
    assert l.stored == Find(Restart(st, orders).stored, id) && l.memory == Find(Restart(st, orders).memory, id);
  }

  lemma SameEntries<K, V>(m: map<K, V>, n: map<K, V>)
    requires forall k :: Find(m, k) == Find(n, k)
    ensures m == n
  {
    forall k ensures k in m <==> k in n { assert Find(m, k) == Find(n, k); }
    forall k | k in m ensures m[k] == n[k] { assert Find(m, k) == Find(n, k); }
  }

  lemma RestartKeepsInv(st: State, orders: map<VoteId, seq<Ballot>>)
    requires Inv(st) && Legal(st, Restarted(orders))
    ensures Inv(Restart(st, orders))
  {
    forall id ensures LocalOk(At(Restart(st, orders), id)) {
      assert LocalOk(At(st, id));
      RestartLocal(At(st, id), Ordered(st, orders, id));
      RestartAt(st, orders, id);
    }
  }

  // --- Whole runs ---

  lemma StepKeepsInv(st: State, e: Event)
    requires Inv(st) && Legal(st, e)
    ensures Inv(Step(st, e).0)
  {
    match e
    case CreateVote(id, q, members, ephemeral) => CreateKeepsInv(st, id, q, members, ephemeral);
    case OpenVote(id) => OpenKeepsInv(st, id);
    case PersistBallot(id, b, inRoom) => PersistKeepsInv(st, id, b, inRoom);
    case RecordBallot(i) => RecordKeepsInv(st, i);
    case LastBallotIn(i) => RemoveFullKeepsInv(st, i);
    case Deadline(id) => ExpireKeepsInv(st, id);
    case EndVote(id) => EndKeepsInv(st, id);
    case Restarted(orders) => RestartKeepsInv(st, orders);
    case AskStatus(_) =>
    case AskList(_) =>
  }

  lemma RunKeepsInv(start: State, run: History, last: State)
    requires Inv(start) && IsRun(LeadsTo, start, run, last)
    ensures Inv(last) && forall i :: 0 <= i < |run| ==> Inv(run[i].st)
  {
    forall st, e, next | Inv(st) && LeadsTo(st, e, next) ensures Inv(next) { StepKeepsInv(st, e); }
    RunInvariant(LeadsTo, Inv, start, run, last);
  }
}
