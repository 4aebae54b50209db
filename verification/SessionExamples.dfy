/** Runs from a fresh server in which the guards of `SessionGuards` fail. */
module SessionExamples {
  import opened Wrappers
  import opened Broker
  import opened Runs
  import opened Sessions
  import opened SessionGuards

  const A: Agent := "a"
  const K: Key := "k"
  const ALONE := Turn([A], Some(A))

  /** Everything about a state in which only one agent exists; `inside` is the rooms it is in. */
  datatype Scene = Scene(
    sessions: map<SessionId, Phase>, agents: map<Agent, Conn>, latest: map<Agent, SessionId>, stash: map<Agent, Stash>,
    ephemeral: set<Room>, permanent: set<Room>, inside: set<Room>)

  ghost predicate Shows(st: State, x: Scene) {
    && st.sessions == x.sessions && st.agents == x.agents && st.latest == x.latest && st.stash == x.stash
    && st.ephemeral == x.ephemeral && st.permanent == x.permanent
    && forall r :: st.rooms(r) == if r in x.inside then ALONE else NOBODY
  }

  /** Some run leads to the scene. */
  ghost predicate Happens(p: set<Room>, x: Scene) {
    exists run, st :: IsHistory(p, run, st) && Shows(st, x)
  }

  /** If the event leads from any state that shows `x` to one that shows `y`, then `y` happens. */
  lemma Then(p: set<Room>, x: Scene, e: Event, y: Scene)
    requires Happens(p, x)
    requires forall st :: Shows(st, x) ==> Legal(st, e) && Shows(Step(st, e), y)
    ensures Happens(p, y)
  {
    var run, st :| IsHistory(p, run, st) && Shows(st, x);
    RunExtend(LeadsTo, Start(p), run, st, e, Step(st, e));
    assert IsHistory(p, run + [Moment(st, e)], Step(st, e));
  }

  lemma Begins(p: set<Room>)
    ensures Happens(p, Scene(map[], map[], map[], map[], {}, p, {}))
  {
    assert IsHistory(p, [], Start(p));
    assert Shows(Start(p), Scene(map[], map[], map[], map[], {}, p, {}));
  }

  function Claiming(x: Scene, s: SessionId, restored: Restored): Scene {
    x.(sessions := x.sessions[s := Claimed(A, K, restored)], stash := if restored.Reclaimed? then x.stash - {A} else x.stash)
  }

  lemma Claims(p: set<Room>, x: Scene, s: SessionId, reconnect: bool, restored: Restored)
    requires Happens(p, x) && s !in x.sessions
    requires if reconnect && A in x.stash then x.stash[A].key == K && restored == Reclaimed(x.stash[A].tracked)
             else if A in x.agents then reconnect && x.agents[A].key == K && restored == TakenOver(x.agents[A].tracked)
             else restored == Nothing
    ensures Happens(p, Claiming(x, s, restored))
  {
    Then(p, x, ClaimAgent(s, A, K, reconnect, false, false), Claiming(x, s, restored));
  }

  function Installing(x: Scene, s: SessionId): Scene
    requires s in x.sessions && x.sessions[s].Claimed?
  {
    var rooms := RoomsOf(x.sessions[s].restored);
    x.(agents := x.agents[A := Conn(s, K, rooms)], sessions := x.sessions[s := Live(A)], latest := x.latest[A := s], inside := x.inside + rooms)
  }

  lemma Installs(p: set<Room>, x: Scene, s: SessionId)
    requires Happens(p, x) && s in x.sessions && x.sessions[s].Claimed? && x.sessions[s].agent == A && x.sessions[s].key == K
    ensures Happens(p, Installing(x, s))
  {
    Then(p, x, InstallConn(s), Installing(x, s));
  }

  function Joining(x: Scene, room: Room): Scene {
    x.(agents := Track(x.agents, A, TrackedBy(x.agents, A) + {room}), inside := x.inside + {room})
  }

  lemma Joins(p: set<Room>, x: Scene, s: SessionId, room: Room)
    requires Happens(p, x) && s in x.sessions && x.sessions[s] == Live(A) && A in x.latest && x.latest[A] == s
    requires (room in x.ephemeral || room in x.permanent) && room !in x.inside
    ensures Happens(p, Joining(x, room))
  {
    Then(p, x, JoinEvent(s, room), Joining(x, room));
  }

  function CleaningUp(x: Scene, s: SessionId): Scene
    requires A in x.agents
  {
    var c := x.agents[A];
    x.(stash := if exists r :: r in c.tracked && r !in x.ephemeral then x.stash[A := Stash(c.key, c.tracked)] else x.stash,
       ephemeral := x.ephemeral - x.inside, sessions := x.sessions[s := Cleaning(A)], inside := {})
  }

  lemma AloneLeaves()
    ensures Leave(ALONE, A) == NOBODY
  {
    assert Without([A], A) == [];
  }

  lemma CleanupEmpties(st: State, x: Scene, r: Room)
    requires Shows(st, x)
    ensures LeaveEach(st.rooms, A)(r) == NOBODY && (r in Emptied(st, A) <==> r in x.ephemeral * x.inside)
  {
    AloneLeaves();
    assert st.rooms(r) == if r in x.inside then ALONE else NOBODY;
  }

  lemma CleanupShows(st: State, x: Scene, s: SessionId)
    requires Shows(st, x) && s in x.sessions && x.sessions[s] == Live(A) && A in x.agents && x.agents[A].session == s
    ensures Shows(BeginCleanup(st, s), CleaningUp(x, s))
  {
    forall r ensures LeaveEach(st.rooms, A)(r) == NOBODY && (r in Emptied(st, A) <==> r in x.ephemeral * x.inside) {
      CleanupEmpties(st, x, r);
    }
    assert x.ephemeral - Emptied(st, A) == x.ephemeral - x.inside;
  }

  lemma CleansUp(p: set<Room>, x: Scene, s: SessionId)
    requires Happens(p, x) && s in x.sessions && x.sessions[s] == Live(A) && A in x.agents && x.agents[A].session == s
    ensures Happens(p, CleaningUp(x, s))
  {
    forall st | Shows(st, x) ensures Legal(st, Cleanup(s)) && Shows(Step(st, Cleanup(s)), CleaningUp(x, s)) {
      CleanupShows(st, x, s);
    }
    Then(p, x, Cleanup(s), CleaningUp(x, s));
  }

  function Removing(x: Scene, s: SessionId): Scene {
    x.(agents := x.agents - {A}, sessions := x.sessions[s := Ended])
  }

  lemma Removes(p: set<Room>, x: Scene, s: SessionId)
    requires Happens(p, x) && s in x.sessions && x.sessions[s] == Cleaning(A)
    ensures Happens(p, Removing(x, s))
  {
    Then(p, x, RemoveEntry(s), Removing(x, s));
  }

  /** The agent is registered as session 0 and in no room. */
  function Registered(p: set<Room>): Scene {
    Scene(map[0 := Live(A)], map[A := Conn(0, K, {})], map[A := 0], map[], {}, p, {})
  }

  lemma Registers(p: set<Room>)
    ensures Happens(p, Registered(p))
  {
    var x := Scene(map[], map[], map[], map[], {}, p, {});
    Begins(p);
    Claims(p, x, 0, false, Nothing);
    Installs(p, Claiming(x, 0, Nothing), 0);
    RegisteredExact(p);
  }

  lemma RegisteredExact(p: set<Room>)
    ensures Installing(Claiming(Scene(map[], map[], map[], map[], {}, p, {}), 0, Nothing), 0) == Registered(p)
  {
  }

  /** Session 1 takes over while session 0 disconnects: session 0 has left its rooms and not
      removed the entry, which is session 1's by now. */
  function Overtaken(x: Scene, tracked: set<Room>): Scene {
    x.(sessions := map[0 := Cleaning(A), 1 := Live(A)], agents := map[A := Conn(1, K, tracked)], latest := map[A := 1],
       stash := if tracked == {} then x.stash else x.stash[A := Stash(K, tracked)], inside := tracked)
  }

  lemma OvertakenExact(x: Scene, tracked: set<Room>)
    requires x.ephemeral == {} && x.stash == map[] && x.inside == tracked
    requires x.sessions == map[0 := Live(A)] && x.agents == map[A := Conn(0, K, tracked)] && x.latest == map[A := 0]
    ensures Installing(CleaningUp(Claiming(x, 1, TakenOver(tracked)), 0), 1) == Overtaken(x, tracked)
  {
    assert tracked != {} ==> exists r :: r in tracked;
  }

  lemma TakesOver(p: set<Room>, x: Scene, tracked: set<Room>)
    requires Happens(p, x) && x.ephemeral == {} && x.stash == map[] && x.inside == tracked
    requires x.sessions == map[0 := Live(A)] && x.agents == map[A := Conn(0, K, tracked)] && x.latest == map[A := 0]
    ensures Happens(p, Overtaken(x, tracked))
  {
    Claims(p, x, 1, true, TakenOver(tracked));
    CleansUp(p, Claiming(x, 1, TakenOver(tracked)), 0);
    Installs(p, CleaningUp(Claiming(x, 1, TakenOver(tracked)), 0), 1);
    OvertakenExact(x, tracked);
  }

  /** The agent is a member of the room without being registered. */
  ghost predicate StrayMember(p: set<Room>, room: Room) {
    exists run, last :: IsHistory(p, run, last) && A in last.rooms(room).members && A !in last.agents
  }

  lemma Strays(p: set<Room>, x: Scene, room: Room)
    requires Happens(p, x) && room in x.inside && A !in x.agents
    ensures StrayMember(p, room)
  {
    var run, st :| IsHistory(p, run, st) && Shows(st, x);
    assert A in st.rooms(room).members;
  }

  /** The entry of a connection that restored a room is removed by the one it took over from. */
  lemma RemovedAfterRestoring(room: Room)
    ensures StrayMember({room}, room)
  {
    var x := Registered({room});
    Registers({room});
    Joins({room}, x, 0, room);
    TakesOver({room}, Joining(x, room), {room});
    var y := Overtaken(Joining(x, room), {room});
    Removes({room}, y, 0);
    Strays({room}, Removing(y, 0), room);
  }

  /** ... and so is that of a connection that restored nothing and joined in the meantime. */
  lemma RemovedAfterJoining(room: Room)
    ensures StrayMember({room}, room)
  {
    var y := Overtaken(Registered({room}), {});
    Registers({room});
    TakesOver({room}, Registered({room}), {});
    Joins({room}, y, 1, room);
    Removes({room}, Joining(y, room), 0);
    Strays({room}, Removing(Joining(y, room), 0), room);
  }

  /** A connection whose entry was removed can still join. */
  lemma JoinsWithoutEntry(room: Room)
    ensures StrayMember({room}, room)
  {
    var y := Overtaken(Registered({room}), {});
    Registers({room});
    TakesOver({room}, Registered({room}), {});
    Removes({room}, y, 0);
    Joins({room}, Removing(y, 0), 1, room);
    Strays({room}, Joining(Removing(y, 0), room), room);
  }

  /** A live connection owns the agent's entry, the agent is in the room, and the entry does not track it. */
  ghost predicate Untracked(p: set<Room>, room: Room, tracked: set<Room>) {
    exists run, last, s :: IsHistory(p, run, last) && Owns(last, s) && OwnsEntry(last, s, A)
      && A in last.rooms(room).members && last.agents[A].tracked == tracked && room !in tracked
  }

  lemma Forgets(p: set<Room>, x: Scene, s: SessionId, room: Room)
    requires Happens(p, x) && s in x.sessions && x.sessions[s] == Live(A) && A in x.agents && x.agents[A].session == s
    requires room in x.inside && room !in x.agents[A].tracked
    ensures Untracked(p, room, x.agents[A].tracked)
  {
    var run, st :| IsHistory(p, run, st) && Shows(st, x);
    assert Owns(st, s) && A in st.rooms(room).members;
  }

  /** A takeover restores the rooms tracked when it was claimed, so one joined before it is
      installed is no longer tracked. No stash is involved. */
  lemma StaleTakeoverForgets(room: Room)
    ensures Untracked({room}, room, {})
  {
    var x := Registered({room});
    var claimed := Claiming(x, 1, TakenOver({}));
    Registers({room});
    Claims({room}, x, 1, true, TakenOver({}));
    Joins({room}, claimed, 0, room);
    Installs({room}, Joining(claimed, room), 1);
    Forgets({room}, Installing(Joining(claimed, room), 1), 1, room);
  }

  /** The agent has disconnected from rooms one of which is permanent. */
  function Gone(p: set<Room>, tracked: set<Room>): Scene {
    Scene(map[0 := Ended], map[], map[A := 0], map[A := Stash(K, tracked)], {}, p, {})
  }

  lemma GoneExact(p: set<Room>, x: Scene, permanent: Room)
    requires x.sessions == map[0 := Live(A)] && x.agents == map[A := Conn(0, K, x.inside)] && x.latest == map[A := 0]
    requires x.stash == map[] && x.permanent == p && x.ephemeral <= x.inside && permanent in x.inside && permanent !in x.ephemeral
    ensures Removing(CleaningUp(x, 0), 0) == Gone(p, x.inside)
  {
    assert x.agents[A].tracked == x.inside;
  }

  lemma Goes(p: set<Room>, x: Scene, permanent: Room)
    requires Happens(p, x)
    requires x.sessions == map[0 := Live(A)] && x.agents == map[A := Conn(0, K, x.inside)] && x.latest == map[A := 0]
    requires x.stash == map[] && x.permanent == p && x.ephemeral <= x.inside && permanent in x.inside && permanent !in x.ephemeral
    ensures Happens(p, Gone(p, x.inside))
  {
    CleansUp(p, x, 0);
    Removes(p, CleaningUp(x, 0), 0);
    GoneExact(p, x, permanent);
  }

  /** The agent disconnected from `p` and came back without asking to reconnect. */
  function Back(p: Room, q: Room): Scene {
    Scene(map[0 := Ended, 1 := Live(A)], map[A := Conn(1, K, {})], map[A := 1], map[A := Stash(K, {p})], {}, {p, q}, {})
  }

  lemma ComesBack(p: Room, q: Room)
    ensures Happens({p, q}, Back(p, q))
  {
    var x := Joining(Registered({p, q}), p);
    assert x.inside == {p};
    Registers({p, q});
    Joins({p, q}, Registered({p, q}), 0, p);
    Goes({p, q}, x, p);
    ComesBackFrom(p, q);
  }

  lemma BackExact(p: Room, q: Room)
    ensures Installing(Claiming(Gone({p, q}, {p}), 1, Nothing), 1) == Back(p, q)
  {
    assert map[0 := Ended][1 := Live(A)] == map[0 := Ended, 1 := Live(A)];
  }

  lemma ComesBackFrom(p: Room, q: Room)
    requires Happens({p, q}, Gone({p, q}, {p}))
    ensures Happens({p, q}, Back(p, q))
  {
    Claims({p, q}, Gone({p, q}, {p}), 1, false, Nothing);
    Installs({p, q}, Claiming(Gone({p, q}, {p}), 1, Nothing), 1);
    BackExact(p, q);
  }

  /** Reclaiming the stash later, over the live connection, forgets the room that connection joined. */
  lemma ReclaimOverLiveForgets(p: Room, q: Room)
    requires p != q
    ensures Untracked({p, q}, q, {p})
  {
    var x := Joining(Back(p, q), q);
    ComesBack(p, q);
    Joins({p, q}, Back(p, q), 1, q);
    Claims({p, q}, x, 2, true, Reclaimed({p}));
    Installs({p, q}, Claiming(x, 2, Reclaimed({p})), 2);
    Forgets({p, q}, Installing(Claiming(x, 2, Reclaimed({p})), 2), 2, q);
  }

  lemma CreatesEphemeral(p: set<Room>, x: Scene, e: Room)
    requires Happens(p, x) && e !in x.ephemeral && e !in x.permanent
    ensures Happens(p, x.(ephemeral := x.ephemeral + {e}))
  {
    Then(p, x, CreateRoom(e, true), x.(ephemeral := x.ephemeral + {e}));
  }

  lemma EphemeralCreated(p: Room, e: Room)
    requires p != e
    ensures Happens({p}, Registered({p}).(ephemeral := {e}))
  {
    Registers({p});
    CreatesEphemeral({p}, Registered({p}), e);
    assert Registered({p}).(ephemeral := {} + {e}) == Registered({p}).(ephemeral := {e});
  }

  lemma LeavesBoth(p: Room, e: Room)
    requires p != e
    ensures Happens({p}, Gone({p}, {p, e}))
  {
    var x := Registered({p}).(ephemeral := {e});
    EphemeralCreated(p, e);
    Joins({p}, x, 0, p);
    Joins({p}, Joining(x, p), 0, e);
    var both := Joining(Joining(x, p), e);
    assert both.inside == {p, e};
    Goes({p}, both, p);
  }

  /** An agent that was in a permanent room and alone in an ephemeral one comes back into the
      ephemeral room, which is gone. */
  lemma RestoresGoneRoom(p: Room, e: Room)
    requires p != e
    ensures exists run, last :: IsHistory({p}, run, last) && A in last.rooms(e).members && !RoomExists(last, e)
  {
    var gone := Gone({p}, {p, e});
    LeavesBoth(p, e);
    Claims({p}, gone, 1, true, Reclaimed({p, e}));
    Installs({p}, Claiming(gone, 1, Reclaimed({p, e})), 1);
    var back := Installing(Claiming(gone, 1, Reclaimed({p, e})), 1);
    var run, last :| IsHistory({p}, run, last) && Shows(last, back);
    assert A in last.rooms(e).members && !RoomExists(last, e);
  }
}
