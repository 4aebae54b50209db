/**
Sealed-ballot votes: the in-memory vote table, its SQL mirror, and the steps of casting,
closing, deadlines and restarts.

Creating, casting and closing are split where another task can run in between: storing the
vote, opening it in memory, persisting a ballot, recording it in memory, removing a full or
expired vote from memory, and closing its row.
*/
module Votes {
  import opened Wrappers
  import opened Maps
  import opened Sequences
  import opened Runs

  type VoteId = string
  type AgentId = string
  type RoomId = string

  datatype Ballot = Ballot(agent: AgentId, name: string, option: nat)

  /** What never changes about a vote. */
  datatype Question = Question(
    room: RoomId, title: string, options: seq<string>, createdBy: AgentId, createdAt: int, deadline: Option<int>)

  datatype ActiveVote = ActiveVote(
    question: Question, ballots: seq<Ballot>, eligibleVoters: nat, eligible: set<AgentId>, ephemeral: bool)

  /** A row of `votes` with its rows of `vote_ballots` and `vote_eligible_agents`. */
  datatype StoredVote = StoredVote(
    question: Question, open: bool, eligibleVoters: nat, electorate: set<AgentId>, ballots: seq<Ballot>)

  /** A cast whose ballot is persisted (when the vote is) and not yet recorded in memory. */
  datatype Cast = Cast(vote: VoteId, ballot: Ballot)

  /** A cast that recorded a vote's last ballot, with the reply it will send after removing the vote. */
  datatype Closer = Closer(vote: VoteId, votesCast: nat, eligibleVoters: nat)

  /** A vote that was removed from memory by a task that has not yet closed its row; `reply`
      is what that task sends afterwards, if it is a cast. `late` is history: the ballots of
      this vote that the removed copy misses, because they were persisted and not recorded
      when it was removed, or were persisted since. */
  datatype Ending = Ending(vote: ActiveVote, reply: Option<Closer>, late: seq<Ballot>)

  datatype Announcement = Announcement(vote: VoteId, question: Question, tally: seq<nat>, ballots: seq<Ballot>, eligibleVoters: nat)

  datatype ErrorCode = VoteNotFound | VoteClosed | AlreadyVoted | NotInRoom | AccessDenied | InvalidOption | InvalidPayload

  datatype VoteInfo = VoteInfo(
    id: VoteId, question: Question, open: bool, votesCast: nat, eligibleVoters: nat, tally: Option<seq<nat>>)

  /** What a step sends out: a reply to the caller or a broadcast to the room. */
  datatype Output =
    | Created(info: VoteInfo)
    | CastOk(vote: VoteId, votesCast: nat, eligibleVoters: nat)
    | Failed(code: ErrorCode)
    | Status(info: VoteInfo)
    | Listing(infos: set<VoteInfo>)
    | Result(announcement: Announcement)

  /** `opening` holds the votes that are created and not yet in memory. `missed` is history:
      the ballots of a stored vote whose casts are over and that its copy in memory will never
      hold, because it was not there yet or turned them away.
      `closing` holds the votes whose last ballot is recorded by a task that has not yet
      removed them. `created`, `announced` and `recorded` are history: every vote id
      handed out, every result broadcast, and every ballot accepted with an Ok reply. */
  datatype State = State(
    opening: map<VoteId, ActiveVote>, memory: map<VoteId, ActiveVote>, stored: map<VoteId, StoredVote>,
    pending: seq<Cast>, missed: map<VoteId, seq<Ballot>>, closing: seq<Closer>, ending: map<VoteId, Ending>,
    created: set<VoteId>, announced: seq<Announcement>, recorded: map<VoteId, seq<Ballot>>)

  // --- Tallies ---

  function CountFor(ballots: seq<Ballot>, option: int): nat {
    if ballots == [] then 0
    else (if ballots[0].option == option then 1 else 0) + CountFor(ballots[1..], option)
  }

  /** Ballots per option. */
  function Tally(options: nat, ballots: seq<Ballot>): (counts: seq<nat>)
    ensures |counts| == options
  {
    seq(options, i => CountFor(ballots, i))
  }

  function Sum(counts: seq<nat>): nat {
    if counts == [] then 0 else counts[0] + Sum(counts[1..])
  }

  // --- Creating ---

  predicate HasAgent(ballots: seq<Ballot>, agent: AgentId) {
    exists b :: b in ballots && b.agent == agent
  }

  function Elements<T>(s: seq<T>): set<T> {
    set x | x in s
  }

  /** The checks and the INSERT of the vote. `members` is the room's member list, which is the
      electorate. */
  function Create(st: State, id: VoteId, q: Question, members: seq<AgentId>, ephemeral: bool): (State, seq<Output>) {
    if q.createdBy !in members then (st, [Failed(NotInRoom)])
    else if |q.options| < 2 then (st, [Failed(InvalidPayload)])
    else
      var vote := ActiveVote(q, [], |members|, Elements(members), ephemeral);
      var row := StoredVote(q, true, |members|, Elements(members), []);
      (st.(opening := st.opening[id := vote],
           stored := if ephemeral then st.stored else st.stored[id := row],
           created := st.created + {id}, recorded := st.recorded[id := []]), [])
  }

  /** The vote enters memory, and the room is told. */
  function Open(st: State, id: VoteId): (State, seq<Output>)
    requires id in st.opening
  {
    (st.(opening := st.opening - {id}, memory := st.memory[id := st.opening[id]]), [Created(InfoOf(id, st.opening[id]))])
  }

  function InfoOf(id: VoteId, vote: ActiveVote): VoteInfo {
    VoteInfo(id, vote.question, true, |vote.ballots|, vote.eligibleVoters, None)
  }

  /** The info of a vote that is not in memory; its tally only once it is closed. */
  function StoredInfo(id: VoteId, row: StoredVote): VoteInfo {
    VoteInfo(id, row.question, row.open, |row.ballots|, row.eligibleVoters,
             if row.open then None else Some(Tally(|row.question.options|, row.ballots)))
  }

  // --- Casting ---

  /** The checks of the cast handler. The option is checked only if the vote is in memory. */
  function Barrier(st: State, id: VoteId, ballot: Ballot, inRoom: bool): Option<ErrorCode> {
    if id !in st.memory && id !in st.stored then Some(VoteNotFound)
    else if !inRoom then Some(NotInRoom)
    else if ballot.agent !in (if id in st.memory then st.memory[id].eligible else st.stored[id].electorate) then Some(AccessDenied)
    else if id in st.memory && ballot.option >= |st.memory[id].question.options| then Some(InvalidOption)
    else None
  }

  /** The checks and the INSERT of the ballot row. */
  function Persist(st: State, id: VoteId, ballot: Ballot, inRoom: bool): (State, seq<Output>) {
    var barrier := Barrier(st, id, ballot, inRoom);
    if barrier.Some? then (st, [Failed(barrier.value)])
    else if id in st.memory && st.memory[id].ephemeral then (st.(pending := st.pending + [Cast(id, ballot)]), [])
    else InsertBallot(st, id, ballot)
  }

  function InsertBallot(st: State, id: VoteId, ballot: Ballot): (State, seq<Output>) {
    if id !in st.stored then (st, [Failed(VoteNotFound)])
    else
      var row := st.stored[id];
      if !row.open then (st, [Failed(VoteClosed)])
      else if HasAgent(row.ballots, ballot.agent) then (st, [Failed(AlreadyVoted)])
      else (st.(stored := st.stored[id := row.(ballots := row.ballots + [ballot])],
                pending := st.pending + [Cast(id, ballot)],
                ending := Missing(st.ending, id, ballot)), [])
  }

  /** A vote that is ending misses one more ballot. */
  function Missing(ending: map<VoteId, Ending>, id: VoteId, ballot: Ballot): map<VoteId, Ending> {
    if id in ending then ending[id := ending[id].(late := ending[id].late + [ballot])] else ending
  }

  function RemoveAt<T>(s: seq<T>, i: nat): seq<T>
    requires i < |s|
  {
    s[..i] + s[i + 1..]
  }

  /** Why an active vote turns a ballot away, if it does. */
  function Refusal(vote: ActiveVote, ballot: Ballot): Option<ErrorCode> {
    if ballot.option >= |vote.question.options| then Some(InvalidOption)
    else if ballot.agent !in vote.eligible then Some(AccessDenied)
    else if HasAgent(vote.ballots, ballot.agent) then Some(AlreadyVoted)
    else None
  }

  /** Pushing the ballot. When it is the last one the reply waits until the vote is removed. */
  function Push(st: State, id: VoteId, ballot: Ballot): (State, seq<Output>)
    requires id in st.memory
  {
    var vote := st.memory[id].(ballots := st.memory[id].ballots + [ballot]);
    var (n, eligible) := (|vote.ballots|, vote.eligibleVoters);
    (st.(memory := st.memory[id := vote],
         recorded := st.recorded[id := Recorded(st, id) + [ballot]],
         closing := if n >= eligible then st.closing + [Closer(id, n, eligible)] else st.closing),
     if n >= eligible then [] else [CastOk(id, n, eligible)])
  }

  /** The locked part of `VoteManager::cast_vote`, for the i-th cast in progress. */
  function Record(st: State, i: nat): (State, seq<Output>)
    requires i < |st.pending|
  {
    var Cast(id, ballot) := st.pending[i];
    var rest := st.(pending := RemoveAt(st.pending, i));
    if id !in st.memory then (Overlook(rest, id, ballot), [Failed(VoteNotFound)])
    else
      var refusal := Refusal(st.memory[id], ballot);
      if refusal.Some? then (Overlook(rest, id, ballot), [Failed(refusal.value)]) else Push(rest, id, ballot)
  }

  /** A cast that failed leaves a stored ballot behind. */
  function Overlook(st: State, id: VoteId, ballot: Ballot): State {
    if id in st.stored && (id in st.opening || id in st.memory) then st.(missed := st.missed[id := MissedFor(st, id) + [ballot]]) else st
  }

  function MissedFor(st: State, id: VoteId): seq<Ballot> {
    if id in st.missed then st.missed[id] else []
  }

  function Recorded(st: State, id: VoteId): seq<Ballot> {
    if id in st.recorded then st.recorded[id] else []
  }

  // --- Closing ---

  function ResultOf(id: VoteId, vote: ActiveVote): Announcement {
    Announcement(id, vote.question, Tally(|vote.question.options|, vote.ballots), vote.ballots, vote.eligibleVoters)
  }

  function CastFor(id: VoteId): Cast -> seq<Ballot> {
    (c: Cast) => if c.vote == id then [c.ballot] else []
  }

  /** The ballots of a vote that are persisted, or need not be, and not yet recorded. */
  function PendingFor(pending: seq<Cast>, id: VoteId): seq<Ballot> {
    Join(CastFor(id), pending)
  }

  function Remove(st: State, id: VoteId, reply: Option<Closer>): State
    requires id in st.memory
  {
    st.(memory := st.memory - {id}, missed := st.missed - {id},
        ending := st.ending[id := Ending(st.memory[id], reply, PendingFor(st.pending, id) + MissedFor(st, id))])
  }

  function Expire(st: State, id: VoteId): State {
    if id in st.memory then Remove(st, id, None) else st
  }

  function ReplyOf(c: Closer): Output {
    CastOk(c.vote, c.votesCast, c.eligibleVoters)
  }

  /** The task that recorded the last ballot goes on to remove the vote, unless that is done. */
  function RemoveFull(st: State, i: nat): (State, seq<Output>)
    requires i < |st.closing|
  {
    var c := st.closing[i];
    var rest := st.(closing := RemoveAt(st.closing, i));
    if c.vote in st.memory then (Remove(rest, c.vote, Some(c)), []) else (rest, [ReplyOf(c)])
  }

  /** Whoever removed the vote from memory closes its row and broadcasts the result. */
  function End(st: State, id: VoteId): (State, seq<Output>)
    requires id in st.ending
  {
    var Ending(vote, reply, _) := st.ending[id];
    var result := ResultOf(id, vote);
    (st.(ending := st.ending - {id},
         stored := if !vote.ephemeral && id in st.stored then st.stored[id := st.stored[id].(open := false)] else st.stored,
         announced := st.announced + [result]),
     [Result(result)] + if reply.Some? then [ReplyOf(reply.value)] else [])
  }

  // --- Restarting ---

  /** The repair statements run on every stored vote when the database is opened. */
  function Repair(row: StoredVote): StoredVote {
    if !row.open then row
    else
      var electorate := row.electorate + {row.question.createdBy} + Voters(row.ballots);
      row.(electorate := electorate, eligibleVoters := |electorate|,
           open := |electorate| == 0 || |row.ballots| < |electorate|)
  }

  function Voters(ballots: seq<Ballot>): set<AgentId> {
    set b | b in ballots :: b.agent
  }

  /** The vote that is rebuilt in memory; `order` is the order in which the ballot query
      returned its rows. */
  function Reload(row: StoredVote, order: seq<Ballot>): ActiveVote {
    ActiveVote(row.question, order, row.eligibleVoters, row.electorate, false)
  }

  function Repaired(st: State, id: VoteId): StoredVote {
    if id in st.stored then Repair(st.stored[id]) else StoredVote(Question("", "", [], "", 0, None), false, 0, {}, [])
  }

  function Ordered(st: State, orders: map<VoteId, seq<Ballot>>, id: VoteId): seq<Ballot> {
    if id in orders then orders[id] else if id in st.stored then st.stored[id].ballots else []
  }

  /** The process stops, losing memory and every step in progress, and starts again. */
  ghost function Restart(st: State, orders: map<VoteId, seq<Ballot>>): State {
    var open := set id | id in st.stored && Repaired(st, id).open;
    st.(stored := Tabulate(st.stored.Keys, id => Repaired(st, id)),
        memory := Tabulate(open, id => Reload(Repaired(st, id), Ordered(st, orders, id))),
        opening := map[], pending := [], missed := map[], closing := [], ending := map[])
  }

  // --- Queries ---

  function GetStatus(st: State, id: VoteId): Output {
    if id in st.memory then Status(InfoOf(id, st.memory[id]))
    else if id in st.stored then Status(StoredInfo(id, st.stored[id]))
    else Failed(VoteNotFound)
  }

  /** Every vote of a room, memory first. */
  function ListVotes(st: State, room: RoomId): Output {
    Listing((set id | id in st.memory && st.memory[id].question.room == room :: InfoOf(id, st.memory[id]))
            + (set id | id in st.stored && id !in st.memory && st.stored[id].question.room == room
                 :: StoredInfo(id, st.stored[id])))
  }

  // --- Runs ---

  datatype Event =
    | CreateVote(id: VoteId, question: Question, members: seq<AgentId>, ephemeral: bool)
    | OpenVote(vote: VoteId)
    | PersistBallot(vote: VoteId, ballot: Ballot, inRoom: bool)
    | RecordBallot(index: nat)
    | LastBallotIn(index: nat)
    | Deadline(vote: VoteId)
    | EndVote(vote: VoteId)
    | Restarted(orders: map<VoteId, seq<Ballot>>)
    | AskStatus(vote: VoteId)
    | AskList(room: RoomId)

  /** Vote ids are new, member lists have no repeats, only votes with a deadline have a
      timer, and the ballot query returns each stored ballot once. */
  ghost predicate Legal(st: State, e: Event) {
    match e
    case CreateVote(id, _, members, _) =>
      id !in st.created && forall i, j :: 0 <= i < j < |members| ==> members[i] != members[j]
    case OpenVote(id) => id in st.opening
    case RecordBallot(i) => i < |st.pending|
    case LastBallotIn(i) => i < |st.closing|
    case EndVote(id) => id in st.ending
    case Deadline(id) => id in st.memory ==> st.memory[id].question.deadline.Some?
    case Restarted(orders) =>
      forall id :: id in orders && id in st.stored ==> multiset(orders[id]) == multiset(st.stored[id].ballots)
    case _ => true
  }

  ghost function Step(st: State, e: Event): (State, seq<Output>)
    requires Legal(st, e)
  {
    match e
    case CreateVote(id, q, members, ephemeral) => Create(st, id, q, members, ephemeral)
    case OpenVote(id) => Open(st, id)
    case PersistBallot(id, ballot, inRoom) => Persist(st, id, ballot, inRoom)
    case RecordBallot(i) => Record(st, i)
    case LastBallotIn(i) => RemoveFull(st, i)
    case Deadline(id) => (Expire(st, id), [])
    case EndVote(id) => End(st, id)
    case Restarted(orders) => (Restart(st, orders), [])
    case AskStatus(id) => (st, [GetStatus(st, id)])
    case AskList(room) => (st, [ListVotes(st, room)])
  }

  ghost predicate LeadsTo(st: State, e: Event, next: State) {
    Legal(st, e) && next == Step(st, e).0
  }

  type History = seq<Moment<State, Event>>

  const EMPTY := State(map[], map[], map[], [], map[], [], map[], {}, [], map[])
}
