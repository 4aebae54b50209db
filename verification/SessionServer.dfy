/** The registry, the stash, the leader tables and the broker, updated in place by connections. */
module SessionServer {
  import opened Wrappers
  import opened Broker
  import S = Sessions
  import L = Leadership

  class Server {
    const tables: Tables
    var agents: map<Agent, S.Conn>
    var stash: map<Agent, S.Stash>
    var sessions: map<S.SessionId, S.Phase>
    var ephemeral: set<Room>
    var permanent: set<Room>
    var elections: map<Room, L.Election>
    var leaders: map<Room, Agent>
    ghost var latest: map<Agent, S.SessionId>

    ghost function Base(): S.State
      reads this, tables
    {
      S.State(agents, tables.View(), stash, sessions, ephemeral, permanent, latest)
    }

    ghost function View(): L.State
      reads this, tables
    {
      L.State(Base(), elections, leaders)
    }

    constructor (rooms: set<Room>)
      ensures Same(Base(), S.Start(rooms)) && elections == map[] && leaders == map[] && fresh(tables)
    {
      tables := new Tables();
      agents, stash, sessions := map[], map[], map[];
      ephemeral, permanent := {}, rooms;
      elections, leaders := map[], map[];
      latest := map[];
    }

    method Claim(s: S.SessionId, agent: Agent, key: S.Key, reconnect: bool, noAuth: bool, expired: bool) returns (r: S.Reply)
      modifies this`stash, this`sessions
      ensures (Base(), r) == S.Claim(old(Base()), s, agent, key, reconnect, noAuth, expired)
    {
      var restored := S.Nothing;
      if reconnect && agent in stash {
        if !noAuth && stash[agent].key != key { return S.AgentIdTaken; }
        if !expired { restored := S.Reclaimed(stash[agent].tracked); }
        stash := stash - {agent};
      } else if agent in agents {
        if !reconnect || (!noAuth && agents[agent].key != key) { return S.AgentIdTaken; }
        restored := S.TakenOver(agents[agent].tracked);
      }
      sessions := sessions[s := S.Claimed(agent, key, restored)];
      r := S.Done;
    }

    method Install(s: S.SessionId)
      requires s in sessions && sessions[s].Claimed?
      modifies this`agents, this`sessions, this`latest, tables
      ensures Same(Base(), S.Install(old(Base()), s))
    {
      var (agent, key, restored) := (sessions[s].agent, sessions[s].key, sessions[s].restored);
      var rooms := S.RoomsOf(restored);
      agents := agents[agent := S.Conn(s, key, {})];
      Rejoin(agent, rooms);
      agents := agents[agent := S.Conn(s, key, rooms)];
      sessions := sessions[s := S.Live(agent)];
      latest := latest[agent := s];
    }

    method Rejoin(agent: Agent, rooms: set<Room>)
      modifies tables
      ensures forall r :: tables.View()(r) == S.JoinEach(old(tables.View()), agent, rooms)(r)
    {
      var todo := rooms;
      while todo != {}
        invariant todo <= rooms
        invariant forall r :: tables.View()(r) == if r in rooms - todo then Join(old(tables.View()(r)), agent) else old(tables.View()(r))
        decreases todo
      {
        var room :| room in todo;
        todo := todo - {room};
        var _ := tables.JoinRoom(agent, room);
      }
    }

    method JoinRoom(s: S.SessionId, room: Room) returns (r: S.Reply)
      requires S.Acts(Base(), s)
      modifies this`agents, tables
      ensures Same(Base(), S.JoinRoom(old(Base()), s, room).0) && r == S.JoinRoom(old(Base()), s, room).1
    {
      var agent := sessions[s].agent;
      if room !in ephemeral && room !in permanent { return S.RoomNotFound; }
      if agent in tables.MembersOf(room) { return S.Done; }
      var _ := tables.JoinRoom(agent, room);
      if agent in agents {
        var c := agents[agent];
        agents := agents[agent := c.(tracked := c.tracked + {room})];
      }
      r := S.Done;
    }

    method LeaveRoom(s: S.SessionId, room: Room) returns (r: S.Reply)
      requires S.Acts(Base(), s)
      modifies this`agents, this`ephemeral, tables
      ensures Same(Base(), S.LeaveRoom(old(Base()), s, room).0) && r == S.LeaveRoom(old(Base()), s, room).1
    {
      var agent := sessions[s].agent;
      if agent !in tables.MembersOf(room) { return S.NotInRoom; }
      var out := tables.LeaveRoom(agent, room);
      if agent in agents {
        var c := agents[agent];
        agents := agents[agent := c.(tracked := c.tracked - {room})];
      }
      if out.nowEmpty && room in ephemeral {
        ephemeral := ephemeral - {room};
        tables.RemoveRoom(room);
      }
      r := S.Done;
    }

    method Speak(s: S.SessionId, room: Room) returns (r: S.Reply)
      requires S.Acts(Base(), s)
      modifies tables
      ensures Same(Base(), S.Speak(old(Base()), s, room).0) && r == S.Speak(old(Base()), s, room).1
    {
      var agent := sessions[s].agent;
      if agent !in tables.MembersOf(room) { return S.NotInRoom; }
      var _ := tables.AdvanceTurnFrom(room, agent);
      r := S.Done;
    }

    /** The disconnect path up to removing the registry entry. */
    method BeginCleanup(s: S.SessionId)
      requires s in sessions && sessions[s].Live?
      modifies this`stash, this`sessions, this`ephemeral, this`leaders, tables
      ensures Same(Base(), S.BeginCleanup(old(Base()), s))
      ensures elections == old(elections) && leaders == L.SessionStep(old(View()), S.Cleanup(s)).leaders
    {
      var agent := sessions[s].agent;
      if agent !in agents || agents[agent].session != s {
        sessions := sessions[s := S.Ended];
        return;
      }
      var c := agents[agent];
      if exists r :: r in c.tracked && r !in ephemeral {
        stash := stash[agent := S.Stash(c.key, c.tracked)];
      }
      LeaveRooms(agent);
      leaders := leaders - (set room | room in leaders && leaders[room] == agent);
      sessions := sessions[s := S.Cleaning(agent)];
    }

    /** Leaves every room and destroys the ephemeral ones this empties. */
    method LeaveRooms(agent: Agent)
      modifies this`ephemeral, tables
      ensures ephemeral == old(ephemeral) - S.Emptied(old(Base()), agent)
      ensures forall r :: tables.View()(r) == if r in S.Emptied(old(Base()), agent) then NOBODY else S.LeaveEach(old(Base()).rooms, agent)(r)
    {
      ghost var before := Base();
      var left := tables.LeaveAllRooms(agent);
      ghost var after := tables.View();
      EmptiedExact(before, agent, left);
      DestroyEmptied(left);
      assert forall r :: after(r) == S.LeaveEach(before.rooms, agent)(r);
    }

    method DestroyEmptied(left: map<Room, LeaveOutcome>)
      modifies this`ephemeral, tables
      ensures ephemeral == old(ephemeral) - EmptiedBy(left, old(ephemeral))
      ensures forall r :: tables.View()(r) == if r in EmptiedBy(left, old(ephemeral)) then NOBODY else old(tables.View())(r)
    {
      ghost var was, gone := tables.View(), EmptiedBy(left, ephemeral);
      var todo := left.Keys;
      while todo != {}
        invariant todo <= left.Keys
        invariant ephemeral == old(ephemeral) - (gone - todo)
        invariant forall r :: tables.View()(r) == if r in gone - todo then NOBODY else was(r)
        decreases todo
      {
        var room :| room in todo;
        todo := todo - {room};
        if left[room].nowEmpty && room in ephemeral {
          ephemeral := ephemeral - {room};
          tables.RemoveRoom(room);
        }
      }
    }

    method FinishCleanup(s: S.SessionId)
      requires s in sessions && sessions[s].Cleaning?
      modifies this`agents, this`sessions
      ensures Base() == S.FinishCleanup(old(Base()), s)
    {
      agents := agents - {sessions[s].agent};
      sessions := sessions[s := S.Ended];
    }

    method StartElection(s: S.SessionId, room: Room) returns (out: L.Output)
      requires S.Acts(Base(), s)
      modifies this`elections
      ensures (View(), out) == L.StartElection(old(View()), s, room)
    {
      var members := tables.MembersOf(room);
      if sessions[s].agent !in members { return L.NotInRoom; }
      if room in elections { return L.ElectionInProgress; }
      elections := elections[room := L.Election(members, {})];
      out := L.Accepted;
    }

    method Decline(s: S.SessionId, room: Room) returns (out: L.Output)
      requires S.Acts(Base(), s)
      modifies this`elections
      ensures (View(), out) == L.Decline(old(View()), s, room)
    {
      var agent := sessions[s].agent;
      if agent !in tables.MembersOf(room) { return L.NotInRoom; }
      if room !in elections { return L.NoElectionActive; }
      var e := elections[room];
      elections := elections[room := e.(declined := e.declined + {agent})];
      out := L.Accepted;
    }

    /** `draw` picks among the candidates that remain. */
    method Resolve(room: Room, draw: nat) returns (out: L.Output)
      requires room in elections
      modifies this`elections, this`leaders
      ensures out.LeaderElected? ==> L.Remaining(old(elections)[room], out.leader)
      ensures (View(), out) == L.Resolve(old(View()), room, if out.LeaderElected? then out.leader else "")
    {
      var e := elections[room];
      elections := elections - {room};
      var remaining := [];
      for i := 0 to |e.candidates|
        invariant forall c :: c in remaining <==> c in e.candidates[..i] && c !in e.declined
      {
        assert e.candidates[..i + 1] == e.candidates[..i] + [e.candidates[i]];
        if e.candidates[i] !in e.declined { remaining := remaining + [e.candidates[i]]; }
      }
      assert e.candidates[..|e.candidates|] == e.candidates;
      if remaining == [] { return L.LeaderCleared; }
      var winner := remaining[draw % |remaining|];
      assert winner in remaining;
      leaders := leaders[room := winner];
      out := L.LeaderElected(winner);
    }

    method Decide(s: S.SessionId, room: Room) returns (out: L.Output)
      requires S.Acts(Base(), s)
      ensures out == L.Decide(View(), s, room)
    {
      var agent := sessions[s].agent;
      if agent !in tables.MembersOf(room) { return L.NotInRoom; }
      if room !in leaders || leaders[room] != agent { return L.NotLeader; }
      out := L.DecisionMade(agent);
    }
  }

  /** The ephemeral rooms that were left empty, told from the reports of leaving them. */
  function EmptiedBy(left: map<Room, LeaveOutcome>, ephemeral: set<Room>): set<Room> {
    set r | r in left && left[r].nowEmpty && r in ephemeral
  }

  lemma EmptiedExact(before: S.State, agent: Agent, left: map<Room, LeaveOutcome>)
    requires forall r :: r in left <==> agent in before.rooms(r).members
    requires forall r :: r in left ==> left[r] == LeaveReport(before.rooms(r), agent)
    ensures EmptiedBy(left, before.ephemeral) == S.Emptied(before, agent)
  {
  }

  /** Equal states, room by room. */
  ghost predicate Same(a: S.State, b: S.State) {
    && a.agents == b.agents && a.stash == b.stash && a.sessions == b.sessions
    && a.ephemeral == b.ephemeral && a.permanent == b.permanent && a.latest == b.latest
    && forall room :: a.rooms(room) == b.rooms(room)
  }
}
