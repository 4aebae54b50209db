/**
Leader elections and decisions on top of the session protocol: what the stored leader of a
room means, told as a property of the whole history.
*/
module Leadership {
  import opened Broker
  import opened Runs
  import S = Sessions

  datatype Election = Election(candidates: seq<Agent>, declined: set<Agent>)

  datatype State = State(base: S.State, elections: map<Room, Election>, leaders: map<Room, Agent>)

  datatype Output =
    | Accepted
    | NotInRoom
    | ElectionInProgress
    | NoElectionActive
    | NotLeader
    | LeaderElected(leader: Agent)
    | LeaderCleared
    | DecisionMade(issuer: Agent)

  predicate InRoom(st: State, s: S.SessionId, room: Room)
    requires S.Acts(st.base, s)
  {
    st.base.sessions[s].agent in st.base.rooms(room).members
  }

  function StartElection(st: State, s: S.SessionId, room: Room): (State, Output)
    requires S.Acts(st.base, s)
  {
    if !InRoom(st, s, room) then (st, NotInRoom)
    else if room in st.elections then (st, ElectionInProgress)
    else (st.(elections := st.elections[room := Election(st.base.rooms(room).members, {})]), Accepted)
  }

  function Decline(st: State, s: S.SessionId, room: Room): (State, Output)
    requires S.Acts(st.base, s)
  {
    if !InRoom(st, s, room) then (st, NotInRoom)
    else if room !in st.elections then (st, NoElectionActive)
    else
      var e := st.elections[room];
      (st.(elections := st.elections[room := e.(declined := e.declined + {st.base.sessions[s].agent})]), Accepted)
  }

  /** The candidates the timer draws from. */
  predicate Remaining(e: Election, agent: Agent) {
    agent in e.candidates && agent !in e.declined
  }

  predicate AllDeclined(e: Election) {
    forall c :: c in e.candidates ==> c in e.declined
  }

  /** The timer fires: `drawn` is the random draw, used when some candidate remains. */
  function Resolve(st: State, room: Room, drawn: Agent): (State, Output)
    requires room in st.elections
  {
    var rest := st.(elections := st.elections - {room});
    if AllDeclined(st.elections[room]) then (rest, LeaderCleared)
    else (rest.(leaders := st.leaders[room := drawn]), LeaderElected(drawn))
  }

  function Decide(st: State, s: S.SessionId, room: Room): Output
    requires S.Acts(st.base, s)
  {
    var agent := st.base.sessions[s].agent;
    if !InRoom(st, s, room) then NotInRoom
    else if room !in st.leaders || st.leaders[room] != agent then NotLeader
    else DecisionMade(agent)
  }

  /** An owning session's cleanup also clears every room its agent led. */
  function ClearLed(st: State, agent: Agent): map<Room, Agent> {
    st.leaders - (set room | room in st.leaders && st.leaders[room] == agent)
  }

  /** The event is the cleanup of the session that owns `agent`'s entry. */
  predicate CleansUp(st: State, e: S.Event, agent: Agent) {
    e.Cleanup? && S.Owns(st.base, e.s) && st.base.sessions[e.s].agent == agent
  }

  function SessionStep(st: State, e: S.Event): State
    requires S.Legal(st.base, e)
  {
    var next := st.(base := S.Step(st.base, e));
    if e.Cleanup? && S.Owns(st.base, e.s) then next.(leaders := ClearLed(st, st.base.sessions[e.s].agent)) else next
  }

  // --- Runs ---

  datatype Event =
    | SessionEvent(e: S.Event)
    | Elect(s: S.SessionId, room: Room)
    | OptOut(s: S.SessionId, room: Room)
    | Timer(room: Room, drawn: Agent)

  predicate Legal(st: State, e: Event) {
    match e
    case SessionEvent(x) => S.Legal(st.base, x)
    case Elect(s, _) => S.Acts(st.base, s)
    case OptOut(s, _) => S.Acts(st.base, s)
    case Timer(room, drawn) => room in st.elections && (AllDeclined(st.elections[room]) || Remaining(st.elections[room], drawn))
  }

  function Step(st: State, e: Event): State
    requires Legal(st, e)
  {
    match e
    case SessionEvent(x) => SessionStep(st, x)
    case Elect(s, room) => StartElection(st, s, room).0
    case OptOut(s, room) => Decline(st, s, room).0
    case Timer(room, drawn) => Resolve(st, room, drawn).0
  }

  function Start(permanent: set<Room>): State {
    State(S.Start(permanent), map[], map[])
  }

  ghost predicate LeadsTo(st: State, e: Event, next: State) {
    Legal(st, e) && next == Step(st, e)
  }

  /** A run from a fresh server with these permanent rooms. */
  ghost predicate IsHistory(p: set<Room>, run: seq<Moment<State, Event>>, last: State) {
    IsRun(LeadsTo, Start(p), run, last)
  }

  // --- What happens in a run ---

  /** `w` wins an election in `room`. */
  predicate Wins(m: Moment<State, Event>, room: Room, w: Agent) {
    m.e == Timer(room, w) && room in m.st.elections && !AllDeclined(m.st.elections[room]) && Remaining(m.st.elections[room], w)
  }

  /** An election in `room` produces a winner, or the session that owns `w`'s entry is cleaned up. */
  predicate Undoes(m: Moment<State, Event>, room: Room, w: Agent) {
    || (m.e.Timer? && Wins(m, room, m.e.drawn))
    || (m.e.SessionEvent? && CleansUp(m.st, m.e.e, w))
  }

  predicate Resolves(m: Moment<State, Event>, room: Room) {
    m.e.Timer? && m.e.room == room
  }

  /** An election opens in `room` among exactly `candidates`, its members. */
  predicate Opens(m: Moment<State, Event>, room: Room, candidates: seq<Agent>) {
    && m.e.Elect? && m.e.room == room && S.Acts(m.st.base, m.e.s)
    && StartElection(m.st, m.e.s, room).1 == Accepted && candidates == m.st.base.rooms(room).members
  }

  /** `a` declines the election in `room`. */
  predicate Declines(m: Moment<State, Event>, room: Room, a: Agent) {
    && m.e.OptOut? && m.e.room == room && S.Acts(m.st.base, m.e.s)
    && Decline(m.st, m.e.s, room).1 == Accepted && m.st.base.sessions[m.e.s].agent == a
  }

  /** `w` won `room` at moment k and nothing since undid it. */
  ghost predicate WonAndKept(run: seq<Moment<State, Event>>, k: nat, room: Room, w: Agent) {
    k < |run| && Wins(run[k], room, w) && forall j :: k < j < |run| ==> !Undoes(run[j], room, w)
  }

  ghost predicate DeclinedSince(run: seq<Moment<State, Event>>, k: nat, room: Room, a: Agent) {
    exists j :: k < j < |run| && Declines(run[j], room, a)
  }

  /** The election was opened at moment k, has not been resolved since, and its declined
      set is exactly who declined since. */
  ghost predicate OpenSince(run: seq<Moment<State, Event>>, k: nat, room: Room, e: Election) {
    && k < |run| && Opens(run[k], room, e.candidates)
    && (forall j :: k < j < |run| ==> !Resolves(run[j], room))
    && (forall a :: a in e.declined <==> DeclinedSince(run, k, room, a))
  }

  /** Only members start an election, which takes none to be open, or decline one, which takes
      one to be open; everybody else changes nothing. */
  lemma ElectionReplies(st: State, s: S.SessionId, room: Room)
    requires S.Acts(st.base, s)
    ensures var agent := st.base.sessions[s].agent;
      var member, open := agent in st.base.rooms(room).members, room in st.elections;
      var (started, a), (declined, b) := StartElection(st, s, room), Decline(st, s, room);
      && a == (if !member then NotInRoom else if open then ElectionInProgress else Accepted)
      && b == (if !member then NotInRoom else if !open then NoElectionActive else Accepted)
      && (a != Accepted ==> started == st) && (b != Accepted ==> declined == st)
      && (a == Accepted ==> started.elections == st.elections[room := Election(st.base.rooms(room).members, {})])
      && (b == Accepted ==> forall c :: Remaining(declined.elections[room], c) <==> Remaining(st.elections[room], c) && c != agent)
  {
  }

  /** When the timer fires, the leader becomes the one drawn if a candidate remains, and the
      room is told that it is cleared exactly if everyone declined. */
  lemma ResolvedIff(st: State, room: Room, drawn: Agent)
    requires Legal(st, Timer(room, drawn))
    ensures var (after, out) := Resolve(st, room, drawn);
      var Election(candidates, declined) := st.elections[room];
      && room !in after.elections
      && (if exists c :: c in candidates && c !in declined then
            drawn in candidates && drawn !in declined && out == LeaderElected(drawn) && after.leaders == st.leaders[room := drawn]
          else out == LeaderCleared && after.leaders == st.leaders)
  {
  }

  // --- Leaders ---

  lemma StepLeaders(m: Moment<State, Event>, next: State, room: Room, w: Agent)
    requires LeadsTo(m.st, m.e, next)
    ensures Leads(next, room, w) <==> Wins(m, room, w) || (Leads(m.st, room, w) && !Undoes(m, room, w))
  {
  }

  lemma KeptStep(run: seq<Moment<State, Event>>, k: nat, room: Room, w: Agent)
    requires k < |run| - 1
    ensures WonAndKept(run, k, room, w) <==> WonAndKept(run[..|run| - 1], k, room, w) && !Undoes(run[|run| - 1], room, w)
  {
    assert forall j :: 0 <= j < |run| - 1 ==> run[..|run| - 1][j] == run[j];
  }

  ghost predicate Leads(st: State, room: Room, w: Agent) {
    room in st.leaders && st.leaders[room] == w
  }

  ghost predicate HasWon(run: seq<Moment<State, Event>>, room: Room, w: Agent) {
    exists k: nat :: WonAndKept(run, k, room, w)
  }

  lemma LeaderStep(run: seq<Moment<State, Event>>, room: Room, w: Agent)
    requires run != []
    ensures var n := |run| - 1;
      HasWon(run, room, w) <==> Wins(run[n], room, w) || (HasWon(run[..n], room, w) && !Undoes(run[n], room, w))
  {
    var n := |run| - 1;
    assert WonAndKept(run, n, room, w) <==> Wins(run[n], room, w);
    forall k: nat | k < n ensures WonAndKept(run, k, room, w) <==> WonAndKept(run[..n], k, room, w) && !Undoes(run[n], room, w) {
      KeptStep(run, k, room, w);
    }
  }

  /** A room's stored leader is exactly the winner of its latest election that produced
      one, unless the winner's owning session has been cleaned up since. */
  lemma {:induction false} LeaderIff(p: set<Room>, run: seq<Moment<State, Event>>, last: State, room: Room, w: Agent)
    requires IsHistory(p, run, last)
    ensures Leads(last, room, w) <==> HasWon(run, room, w)
    decreases |run|
  {
    if run != [] {
      var n := |run| - 1;
      RunPrefix(LeadsTo, Start(p), run, last, n);
      LeaderIff(p, run[..n], run[n].st, room, w);
      StepLeaders(run[n], last, room, w);
      LeaderStep(run, room, w);
    }
  }

  // --- Elections ---

  lemma StepElections(m: Moment<State, Event>, next: State, room: Room)
    requires LeadsTo(m.st, m.e, next) && room in next.elections
    ensures !Resolves(m, room)
    ensures room in m.st.elections ==> next.elections[room].candidates == m.st.elections[room].candidates
    ensures room in m.st.elections ==>
      forall a :: a in next.elections[room].declined <==> a in m.st.elections[room].declined || Declines(m, room, a)
    ensures room !in m.st.elections ==> next.elections[room].declined == {} && Opens(m, room, next.elections[room].candidates)
  {
  }

  lemma OpenStep(run: seq<Moment<State, Event>>, k: nat, room: Room, e: Election, next: Election)
    requires run != [] && OpenSince(run[..|run| - 1], k, room, e) && !Resolves(run[|run| - 1], room)
    requires next.candidates == e.candidates
    requires forall a :: a in next.declined <==> a in e.declined || Declines(run[|run| - 1], room, a)
    ensures OpenSince(run, k, room, next)
  {
    var n := |run| - 1;
    assert forall j :: 0 <= j < n ==> run[..n][j] == run[j];
    forall a ensures DeclinedSince(run, k, room, a) <==> DeclinedSince(run[..n], k, room, a) || Declines(run[n], room, a) {
    }
  }

  ghost predicate HasOpened(run: seq<Moment<State, Event>>, room: Room, e: Election) {
    exists k: nat :: OpenSince(run, k, room, e)
  }

  /** The open election of the room, if there is one, was opened in the run. */
  ghost predicate Accounted(run: seq<Moment<State, Event>>, st: State, room: Room) {
    room in st.elections ==> HasOpened(run, room, st.elections[room])
  }

  lemma ElectionStep(run: seq<Moment<State, Event>>, next: State, room: Room)
    requires run != [] && LeadsTo(run[|run| - 1].st, run[|run| - 1].e, next)
    requires Accounted(run[..|run| - 1], run[|run| - 1].st, room)
    ensures Accounted(run, next, room)
  {
    var m := run[|run| - 1];
    if room in next.elections {
      StepElections(m, next, room);
      if room in m.st.elections {
        var k: nat :| OpenSince(run[..|run| - 1], k, room, m.st.elections[room]);
        OpenStep(run, k, room, m.st.elections[room], next.elections[room]);
      } else {
        assert OpenSince(run, |run| - 1, room, next.elections[room]);
      }
    }
  }

  /** Every open election was opened among the members of that moment, and has collected
      exactly the declines since. */
  lemma {:induction false} ElectionHistory(p: set<Room>, run: seq<Moment<State, Event>>, last: State, room: Room)
    requires IsHistory(p, run, last)
    ensures Accounted(run, last, room)
    decreases |run|
  {
    if run == [] {
      assert last == Start(p);
    } else {
      var n := |run| - 1;
      RunPrefix(LeadsTo, Start(p), run, last, n);
      ElectionHistory(p, run[..n], run[n].st, room);
      ElectionStep(run, last, room);
    }
  }

  // --- Decisions ---

  /** The whole story behind a decision: `agent` was a member of the room when an election
      was opened there at moment i, did not decline before it was resolved at moment k, won
      it, and since then no election there produced a winner and no owning session of
      `agent` ended. */
  ghost predicate Mandate(run: seq<Moment<State, Event>>, i: nat, k: nat, room: Room, agent: Agent) {
    && i < k < |run| && WonAndKept(run, k, room, agent)
    && agent in run[i].st.base.rooms(room).members
    && Opens(run[i], room, run[i].st.base.rooms(room).members)
    && forall j :: i < j < k ==> !Declines(run[j], room, agent) && !Resolves(run[j], room)
  }

  lemma WinnerWasCandidate(p: set<Room>, run: seq<Moment<State, Event>>, last: State, k: nat, room: Room, w: Agent) returns (i: nat)
    requires IsHistory(p, run, last) && WonAndKept(run, k, room, w)
    ensures Mandate(run, i, k, room, w)
  {
    RunPrefix(LeadsTo, Start(p), run, last, k);
    var past, e := run[..k], run[k].st.elections[room];
    ElectionHistory(p, past, run[k].st, room);
    i :| OpenSince(past, i, room, e);
    assert !DeclinedSince(past, i, room, w);
    assert forall j :: 0 <= j < k ==> past[j] == run[j];
  }

  /** A decision is accepted exactly when its issuer is in the room and has such a mandate. */
  lemma DecisionIff(p: set<Room>, run: seq<Moment<State, Event>>, last: State, s: S.SessionId, room: Room)
    requires IsHistory(p, run, last) && S.Acts(last.base, s)
    ensures var agent := last.base.sessions[s].agent;
      (Decide(last, s, room) == DecisionMade(agent) <==>
        agent in last.base.rooms(room).members && exists i: nat, k: nat :: Mandate(run, i, k, room, agent))
  {
    var agent := last.base.sessions[s].agent;
    LeaderIff(p, run, last, room, agent);
    if k: nat :| WonAndKept(run, k, room, agent) {
      var i := WinnerWasCandidate(p, run, last, k, room, agent);
    }
  }

  /** When everyone declines, the room is told that its leader is cleared, yet it has a stored
      leader afterwards exactly if it had one, and everyone's decisions fare as before. */
  lemma ClearedKeepsLeaderIff(st: State, room: Room, drawn: Agent)
    requires room in st.elections && AllDeclined(st.elections[room])
    ensures var (after, out) := Resolve(st, room, drawn);
      && out == LeaderCleared
      && (forall w :: Leads(after, room, w) <==> Leads(st, room, w))
      && forall s :: S.Acts(st.base, s) ==> Decide(after, s, room) == Decide(st, s, room)
  {
  }

  ghost predicate InOffice(run: seq<Moment<State, Event>>, room: Room) {
    exists w :: HasWon(run, room, w)
  }

  /** At the end of a run that ends with that broadcast, the room still has a leader if
      and only if the winner of an earlier election there is still in office. */
  lemma ClearedIff(p: set<Room>, run: seq<Moment<State, Event>>, last: State, room: Room)
    requires IsHistory(p, run, last) && run != []
    requires EndsWith(run, room, LeaderCleared)
    ensures room in last.leaders <==> InOffice(run[..|run| - 1], room)
  {
    var n := |run| - 1;
    RunPrefix(LeadsTo, Start(p), run, last, n);
    ClearedKeepsLeaderIff(run[n].st, room, run[n].e.drawn);
    forall w ensures Leads(last, room, w) <==> HasWon(run[..n], room, w) { LeaderIff(p, run[..n], run[n].st, room, w); }
    assert room in last.leaders ==> Leads(last, room, last.leaders[room]);
  }

  // --- A leader who outlives the broadcast ---

  lemma Extend(p: set<Room>, run: seq<Moment<State, Event>>, last: State, e: Event) returns (more: seq<Moment<State, Event>>, next: State)
    requires IsHistory(p, run, last) && Legal(last, e)
    ensures next == Step(last, e) && IsHistory(p, more, next) && more == run + [Moment(last, e)]
  {
    next := Step(last, e);
    more := run + [Moment(last, e)];
    RunExtend(LeadsTo, Start(p), run, last, e, next);
  }

  /** One agent registers and joins the room. */
  lemma Assembles(room: Room) returns (run: seq<Moment<State, Event>>, st: State)
    ensures IsHistory({room}, run, st) && st.elections == map[] && st.leaders == map[]
    ensures S.Acts(st.base, 0) && st.base.sessions[0].agent == "a" && st.base.rooms(room).members == ["a"]
  {
    run, st := [], Start({room});
    run, st := Extend({room}, run, st, SessionEvent(S.ClaimAgent(0, "a", "k", false, false, false)));
    assert st.base.sessions == map[0 := S.Claimed("a", "k", S.Nothing)];
    run, st := Extend({room}, run, st, SessionEvent(S.InstallConn(0)));
    assert S.Acts(st.base, 0) && st.base.rooms(room) == NOBODY;
    run, st := Extend({room}, run, st, SessionEvent(S.JoinEvent(0, room)));
  }

  /** The last step of the run resolves an election in the room with this broadcast. */
  predicate EndsWith(run: seq<Moment<State, Event>>, room: Room, out: Output)
    requires run != []
  {
    var m := run[|run| - 1];
    Resolves(m, room) && room in m.st.elections && Resolve(m.st, room, m.e.drawn).1 == out
  }

  ghost predicate OutlivesClearing(run: seq<Moment<State, Event>>, last: State, room: Room) {
    && run != [] && EndsWith(run, room, LeaderCleared)
    && exists s :: S.Acts(last.base, s) && Decide(last, s, room).DecisionMade?
  }

  /** An election among that agent alone, resolved after `declines`. */
  lemma HoldsElection(room: Room, run0: seq<Moment<State, Event>>, st0: State, declines: bool)
      returns (run: seq<Moment<State, Event>>, st: State)
    requires IsHistory({room}, run0, st0) && st0.elections == map[]
    requires S.Acts(st0.base, 0) && st0.base.sessions[0].agent == "a" && st0.base.rooms(room).members == ["a"]
    ensures IsHistory({room}, run, st) && st.base == st0.base && st.elections == map[]
    ensures st.leaders == if declines then st0.leaders else st0.leaders[room := "a"]
    ensures run != [] && EndsWith(run, room, if declines then LeaderCleared else LeaderElected("a"))
  {
    run, st := Extend({room}, run0, st0, Elect(0, room));
    if declines { run, st := Extend({room}, run, st, OptOut(0, room)); }
    assert "a" in st.elections[room].candidates;
    run, st := Extend({room}, run, st, Timer(room, "a"));
  }

  /** A run in which an agent is elected, everyone declines the next election, the room is
      told that its leader is cleared, and that agent's decision is accepted. */
  lemma LeaderOutlivesClearing(room: Room)
    ensures exists run, last :: IsHistory({room}, run, last) && OutlivesClearing(run, last, room)
  {
    var run, st := Assembles(room);
    run, st := HoldsElection(room, run, st, false);
    run, st := HoldsElection(room, run, st, true);
    assert Decide(st, 0, room) == DecisionMade("a");
  }
}
