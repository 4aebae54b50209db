/**
Registering, reconnecting, taking over, joining, leaving and cleaning up after a
connection, as steps that connections interleave.

Registering has two steps, because the reply is written in between; so has the cleanup of
an owning session, whose registry entry goes last. A session that a later one of its agent
has replaced only runs its cleanup.
*/
module Sessions {
  import opened Wrappers
  import opened Broker
  import opened Runs

  type SessionId = nat
  type Key = string

  /** The registry entry of an agent, with the rooms its connection tracks. */
  datatype Conn = Conn(session: SessionId, key: Key, tracked: set<Room>)

  datatype Stash = Stash(key: Key, tracked: set<Room>)

  /** What a registration takes over from an earlier connection. */
  datatype Restored = Nothing | TakenOver(tracked: set<Room>) | Reclaimed(tracked: set<Room>)

  datatype Phase =
    | Claimed(agent: Agent, key: Key, restored: Restored)
    | Live(agent: Agent)
    | Cleaning(agent: Agent)
    | Ended

  /** `latest` is history: the session that was last installed for each agent. */
  datatype State = State(
    agents: map<Agent, Conn>, rooms: Room -> Turn, stash: map<Agent, Stash>,
    sessions: map<SessionId, Phase>, ephemeral: set<Room>, permanent: set<Room>, latest: map<Agent, SessionId>)

  datatype Reply = Done | AgentIdTaken | RoomNotFound | NotInRoom

  function Start(permanent: set<Room>): State {
    State(map[], _ => NOBODY, map[], map[], {}, permanent, map[])
  }

  // --- Registering ---

  /** The registration decision. `expired` says whether a stash found here has outlived its window. */
  function Claim(st: State, s: SessionId, agent: Agent, key: Key, reconnect: bool, noAuth: bool, expired: bool): (State, Reply) {
    if reconnect && agent in st.stash then
      if !noAuth && st.stash[agent].key != key then (st, AgentIdTaken)
      else
        var restored := if expired then Nothing else Reclaimed(st.stash[agent].tracked);
        (st.(stash := st.stash - {agent}, sessions := st.sessions[s := Claimed(agent, key, restored)]), Done)
    else if agent in st.agents then
      if !reconnect || (!noAuth && st.agents[agent].key != key) then (st, AgentIdTaken)
      else (st.(sessions := st.sessions[s := Claimed(agent, key, TakenOver(st.agents[agent].tracked))]), Done)
    else (st.(sessions := st.sessions[s := Claimed(agent, key, Nothing)]), Done)
  }

  function RoomsOf(restored: Restored): set<Room> {
    if restored.Nothing? then {} else restored.tracked
  }

  function JoinEach(rooms: Room -> Turn, agent: Agent, joined: set<Room>): Room -> Turn {
    room => if room in joined then Join(rooms(room), agent) else rooms(room)
  }

  function LeaveEach(rooms: Room -> Turn, agent: Agent): Room -> Turn {
    room => if agent in rooms(room).members then Leave(rooms(room), agent) else rooms(room)
  }

  function Put(rooms: Room -> Turn, room: Room, t: Turn): Room -> Turn {
    r => if r == room then t else rooms(r)
  }

  /** The new connection replaces whatever entry the agent has and rejoins its rooms. */
  function Install(st: State, s: SessionId): State
    requires s in st.sessions && st.sessions[s].Claimed?
  {
    var Claimed(agent, key, restored) := st.sessions[s];
    st.(agents := st.agents[agent := Conn(s, key, RoomsOf(restored))],
        rooms := JoinEach(st.rooms, agent, RoomsOf(restored)),
        sessions := st.sessions[s := Live(agent)], latest := st.latest[agent := s])
  }

  /** The connection is lost before the registration is installed. */
  function Abandon(st: State, s: SessionId): State {
    st.(sessions := st.sessions[s := Ended])
  }

  // --- Frames ---

  predicate OwnsEntry(st: State, s: SessionId, agent: Agent) {
    agent in st.agents && st.agents[agent].session == s
  }

  predicate Owns(st: State, s: SessionId) {
    s in st.sessions && st.sessions[s].Live? && OwnsEntry(st, s, st.sessions[s].agent)
  }

  /** A live session that nobody replaced, whether or not its registry entry is still there. */
  predicate Acts(st: State, s: SessionId) {
    && s in st.sessions && st.sessions[s].Live?
    && st.sessions[s].agent in st.latest && st.latest[st.sessions[s].agent] == s
  }

  /** Changes the rooms an agent's entry tracks, if it has an entry. */
  function Track(agents: map<Agent, Conn>, agent: Agent, tracked: set<Room>): map<Agent, Conn> {
    if agent in agents then agents[agent := agents[agent].(tracked := tracked)] else agents
  }

  function TrackedBy(agents: map<Agent, Conn>, agent: Agent): set<Room> {
    if agent in agents then agents[agent].tracked else {}
  }

  predicate RoomExists(st: State, room: Room) {
    room in st.ephemeral || room in st.permanent
  }

  function JoinRoom(st: State, s: SessionId, room: Room): (State, Reply)
    requires Acts(st, s)
  {
    var agent := st.sessions[s].agent;
    if !RoomExists(st, room) then (st, RoomNotFound)
    else if agent in st.rooms(room).members then (st, Done)
    else (st.(rooms := Put(st.rooms, room, Join(st.rooms(room), agent)),
              agents := Track(st.agents, agent, TrackedBy(st.agents, agent) + {room})), Done)
  }

  /** The last to leave an ephemeral room destroys it. */
  function LeaveRoom(st: State, s: SessionId, room: Room): (State, Reply)
    requires Acts(st, s)
  {
    var agent := st.sessions[s].agent;
    if agent !in st.rooms(room).members then (st, NotInRoom)
    else
      var left := Leave(st.rooms(room), agent);
      var destroyed := left.members == [] && room in st.ephemeral;
      (st.(rooms := Put(st.rooms, room, if destroyed then NOBODY else left),
           agents := Track(st.agents, agent, TrackedBy(st.agents, agent) - {room}),
           ephemeral := if destroyed then st.ephemeral - {room} else st.ephemeral), Done)
  }

  function Speak(st: State, s: SessionId, room: Room): (State, Reply)
    requires Acts(st, s)
  {
    var agent := st.sessions[s].agent;
    if agent !in st.rooms(room).members then (st, NotInRoom)
    else (st.(rooms := Put(st.rooms, room, Advance(st.rooms(room), agent))), Done)
  }

  // --- Cleanup ---

  /** The ephemeral rooms that an agent's leaving would empty. */
  function Emptied(st: State, agent: Agent): set<Room> {
    set room | room in st.ephemeral && agent in st.rooms(room).members && Leave(st.rooms(room), agent).members == []
  }

  /** Everything up to removing the registry entry. A session that no longer owns the entry
      stops here, having touched nothing. */
  function BeginCleanup(st: State, s: SessionId): State
    requires s in st.sessions && st.sessions[s].Live?
  {
    var agent := st.sessions[s].agent;
    if !OwnsEntry(st, s, agent) then st.(sessions := st.sessions[s := Ended])
    else
      var c := st.agents[agent];
      var gone := Emptied(st, agent);
      st.(stash := if exists r :: r in c.tracked && r !in st.ephemeral then st.stash[agent := Stash(c.key, c.tracked)] else st.stash,
          rooms := room => if room in gone then NOBODY else LeaveEach(st.rooms, agent)(room),
          ephemeral := st.ephemeral - gone,
          sessions := st.sessions[s := Cleaning(agent)])
  }

  /** Removes the agent's registry entry, whoever owns it by now. */
  function FinishCleanup(st: State, s: SessionId): State
    requires s in st.sessions && st.sessions[s].Cleaning?
  {
    st.(agents := st.agents - {st.sessions[s].agent}, sessions := st.sessions[s := Ended])
  }

  // --- Runs ---

  datatype Event =
    | ClaimAgent(s: SessionId, agent: Agent, key: Key, reconnect: bool, noAuth: bool, expired: bool)
    | InstallConn(s: SessionId)
    | AbandonConn(s: SessionId)
    | JoinEvent(s: SessionId, room: Room)
    | LeaveEvent(s: SessionId, room: Room)
    | SpeakEvent(s: SessionId, room: Room)
    | Cleanup(s: SessionId)
    | RemoveEntry(s: SessionId)
    | SweepStash(agent: Agent)
    | CreateRoom(room: Room, isEphemeral: bool)

  /** Session and room ids are new; a session that was replaced handles no frames. */
  predicate Legal(st: State, e: Event) {
    match e
    case ClaimAgent(s, _, _, _, _, _) => s !in st.sessions
    case InstallConn(s) => s in st.sessions && st.sessions[s].Claimed?
    case AbandonConn(s) => s in st.sessions && st.sessions[s].Claimed?
    case JoinEvent(s, _) => Acts(st, s)
    case LeaveEvent(s, _) => Acts(st, s)
    case SpeakEvent(s, _) => Acts(st, s)
    case Cleanup(s) => s in st.sessions && st.sessions[s].Live?
    case RemoveEntry(s) => s in st.sessions && st.sessions[s].Cleaning?
    case SweepStash(_) => true
    case CreateRoom(room, _) => room !in st.ephemeral + st.permanent
  }

  function Step(st: State, e: Event): State
    requires Legal(st, e)
  {
    match e
    case ClaimAgent(s, agent, key, reconnect, noAuth, expired) => Claim(st, s, agent, key, reconnect, noAuth, expired).0
    case InstallConn(s) => Install(st, s)
    case AbandonConn(s) => Abandon(st, s)
    case JoinEvent(s, room) => JoinRoom(st, s, room).0
    case LeaveEvent(s, room) => LeaveRoom(st, s, room).0
    case SpeakEvent(s, room) => Speak(st, s, room).0
    case Cleanup(s) => BeginCleanup(st, s)
    case RemoveEntry(s) => FinishCleanup(st, s)
    case SweepStash(agent) => st.(stash := st.stash - {agent})
    case CreateRoom(room, isEphemeral) =>
      if isEphemeral then st.(ephemeral := st.ephemeral + {room}) else st.(permanent := st.permanent + {room})
  }

  ghost predicate LeadsTo(st: State, e: Event, next: State) {
    Legal(st, e) && next == Step(st, e)
  }

  /** A run from a fresh server with these permanent rooms. */
  ghost predicate IsHistory(p: set<Room>, run: seq<Moment<State, Event>>, last: State) {
    IsRun(LeadsTo, Start(p), run, last)
  }
}
