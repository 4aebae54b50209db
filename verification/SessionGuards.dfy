/**
Three promises of the session protocol that the code keeps only under a condition: every
room member is registered, a connection tracks exactly the rooms it is in, and every room
that has members exists. Each condition is checked before the step that can break it.
*/
module SessionGuards {
  import opened Wrappers
  import opened Broker
  import opened Runs
  import opened Sessions
  import opened SessionRuns

  type History = seq<Moment<State, Event>>

  // --- Registration ---

  ghost predicate EveryMemberRegistered(st: State) {
    forall room, a :: a in st.rooms(room).members ==> a in st.agents
  }

  /** A cleanup removes no entry whose agent is in a room, and no session whose entry was
      removed joins a room. */
  ghost predicate KeepsRegistered(st: State, e: Event) {
    match e
    case RemoveEntry(s) => s in st.sessions && st.sessions[s].Cleaning? ==> InNoRoom(st, st.sessions[s].agent)
    case JoinEvent(s, room) => s in st.sessions && st.sessions[s].Live? ==> st.sessions[s].agent in st.agents || !RoomExists(st, room)
    case _ => true
  }

  /** These are exactly the steps that can leave an unregistered member behind. */
  lemma StepRegistersIff(st: State, e: Event)
    requires Inv(st) && EveryMemberRegistered(st) && Legal(st, e)
    ensures EveryMemberRegistered(Step(st, e)) <==> KeepsRegistered(st, e)
  {
    match e
    case InstallConn(s) =>
      forall room ensures forall a :: a in Install(st, s).rooms(room).members ==> a in Install(st, s).agents {
        InstallMembers(st, s, room);
      }
    case JoinEvent(s, room) =>
      JoinExact(st.rooms(room), st.sessions[s].agent);
      JoinRegistersIff(st, s, room);
    case LeaveEvent(s, room) => LeaveExact(st.rooms(room), st.sessions[s].agent);
    case SpeakEvent(s, room) => AdvanceKeepsOk(st.rooms(room), st.sessions[s].agent);
    case Cleanup(s) =>
      if Owns(st, s) {
        forall room ensures forall a :: a in BeginCleanup(st, s).rooms(room).members ==> a in st.rooms(room).members { CleanupRoom(st, s, room); }
      }
    case RemoveEntry(s) => RemoveRegistersIff(st, s);
    case _ =>
  }

  lemma JoinRegistersIff(st: State, s: SessionId, room: Room)
    requires Inv(st) && EveryMemberRegistered(st) && Acts(st, s)
    ensures EveryMemberRegistered(JoinRoom(st, s, room).0) <==> KeepsRegistered(st, JoinEvent(s, room))
  {
    var agent := st.sessions[s].agent;
    JoinExact(st.rooms(room), agent);
    if !KeepsRegistered(st, JoinEvent(s, room)) {
      assert agent in JoinRoom(st, s, room).0.rooms(room).members;
    }
  }

  lemma RemoveRegistersIff(st: State, s: SessionId)
    requires EveryMemberRegistered(st) && Legal(st, RemoveEntry(s))
    ensures EveryMemberRegistered(FinishCleanup(st, s)) <==> KeepsRegistered(st, RemoveEntry(s))
  {
    var agent := st.sessions[s].agent;
    if room :| agent in st.rooms(room).members {
      assert agent in FinishCleanup(st, s).rooms(room).members;
    }
  }

  /** In every run, all members are registered at all times if and only if every step keeps
      the guard. */
  lemma RegisteredThroughoutIff(p: set<Room>, run: History, last: State)
    requires IsHistory(p, run, last)
    ensures (EveryMemberRegistered(last) && forall i :: 0 <= i < |run| ==> EveryMemberRegistered(run[i].st)) <==>
      (forall i :: 0 <= i < |run| ==> KeepsRegistered(run[i].st, run[i].e))
  {
    forall st, e, next | Inv(st) && LeadsTo(st, e, next)
      ensures Inv(next) && (EveryMemberRegistered(st) ==> (EveryMemberRegistered(next) <==> KeepsRegistered(st, e)))
    {
      StepKeepsInv(st, e);
      if EveryMemberRegistered(st) { StepRegistersIff(st, e); }
    }
    StartIsInv(p);
    ThroughoutIff(LeadsTo, Inv, EveryMemberRegistered, KeepsRegistered, Start(p), run, last);
  }

  // --- Tracking ---

  ghost predicate TracksExactly(st: State, a: Agent) {
    a in st.agents && forall room :: a in st.rooms(room).members <==> room in st.agents[a].tracked
  }

  /** What an installed connection restores covers every room its agent is in at that moment. */
  ghost predicate RestoresAll(st: State, e: Event) {
    e.InstallConn? && e.s in st.sessions && st.sessions[e.s].Claimed? ==>
      forall room :: st.sessions[e.s].agent in st.rooms(room).members ==> room in RoomsOf(st.sessions[e.s].restored)
  }

  /** A new connection tracks exactly the rooms its agent is in if and only if it restores all of them. */
  lemma InstallTracksIff(st: State, s: SessionId)
    requires RoomsOk(st) && Legal(st, InstallConn(s))
    ensures TracksExactly(Install(st, s), st.sessions[s].agent) <==> RestoresAll(st, InstallConn(s))
  {
    forall room ensures st.sessions[s].agent in Install(st, s).rooms(room).members <==>
      st.sessions[s].agent in st.rooms(room).members || room in RoomsOf(st.sessions[s].restored) {
      InstallMembers(st, s, room);
    }
  }

  /** Every entry whose session is live tracks exactly the rooms its agent is in. */
  ghost predicate LiveTrackExactly(st: State) {
    forall a :: a in st.agents && Owns(st, st.agents[a].session) ==> TracksExactly(st, a)
  }

  lemma SameRoomsSameTracking(st: State, after: State, a: Agent)
    requires Inv(st) && LiveTrackExactly(st) && a in after.agents && Owns(after, after.agents[a].session)
    requires a in st.agents && after.agents[a] == st.agents[a] && Owns(st, st.agents[a].session)
    requires forall room :: a in after.rooms(room).members <==> a in st.rooms(room).members
    ensures TracksExactly(after, a)
  {
    assert TracksExactly(st, a);
  }

  lemma InstallKeepsTracking(st: State, s: SessionId)
    requires Inv(st) && LiveTrackExactly(st) && Legal(st, InstallConn(s)) && RestoresAll(st, InstallConn(s))
    ensures LiveTrackExactly(Install(st, s))
  {
    var after, agent := Install(st, s), st.sessions[s].agent;
    InstallTracksIff(st, s);
    forall a | a in after.agents && Owns(after, after.agents[a].session) ensures TracksExactly(after, a) {
      if a != agent {
        assert EntryOk(st, a);
        forall room ensures a in after.rooms(room).members <==> a in st.rooms(room).members { InstallMembers(st, s, room); }
        SameRoomsSameTracking(st, after, a);
      }
    }
  }

  lemma JoinKeepsTracking(st: State, s: SessionId, room: Room)
    requires Inv(st) && LiveTrackExactly(st) && Acts(st, s)
    ensures LiveTrackExactly(JoinRoom(st, s, room).0)
  {
    var after, agent := JoinRoom(st, s, room).0, st.sessions[s].agent;
    JoinExact(st.rooms(room), agent);
    forall a | a in after.agents && Owns(after, after.agents[a].session) ensures TracksExactly(after, a) {
      assert EntryOk(st, a) && TracksExactly(st, a);
    }
  }

  lemma LeaveKeepsTracking(st: State, s: SessionId, room: Room)
    requires Inv(st) && LiveTrackExactly(st) && Acts(st, s)
    ensures LiveTrackExactly(LeaveRoom(st, s, room).0)
  {
    var after, agent := LeaveRoom(st, s, room).0, st.sessions[s].agent;
    LeaveExact(st.rooms(room), agent);
    forall a | a in after.agents && Owns(after, after.agents[a].session) ensures TracksExactly(after, a) {
      assert EntryOk(st, a) && TracksExactly(st, a);
    }
  }

  lemma CleanupKeepsTracking(st: State, s: SessionId)
    requires Inv(st) && LiveTrackExactly(st) && Legal(st, Cleanup(s))
    ensures LiveTrackExactly(BeginCleanup(st, s))
  {
    var after, agent := BeginCleanup(st, s), st.sessions[s].agent;
    forall a | a in after.agents && Owns(after, after.agents[a].session) ensures TracksExactly(after, a) {
      assert EntryOk(st, a);
      forall room ensures a in after.rooms(room).members <==> a in st.rooms(room).members {
        if Owns(st, s) { CleanupRoom(st, s, room); }
      }
      SameRoomsSameTracking(st, after, a);
    }
  }

  lemma SpeakKeepsTracking(st: State, s: SessionId, room: Room)
    requires Inv(st) && LiveTrackExactly(st) && Acts(st, s)
    ensures LiveTrackExactly(Speak(st, s, room).0)
  {
    AdvanceKeepsOk(st.rooms(room), st.sessions[s].agent);
    QuietStepKeepsTracking(st, Speak(st, s, room).0);
  }

  /** A step that moves no agent, changes no surviving entry and makes no session live. */
  lemma QuietStepKeepsTracking(st: State, after: State)
    requires Inv(st) && LiveTrackExactly(st)
    requires forall room, a :: a in after.rooms(room).members <==> a in st.rooms(room).members
    requires forall a :: a in after.agents ==> a in st.agents && after.agents[a] == st.agents[a]
    requires forall a :: a in after.agents && Owns(after, after.agents[a].session) ==> Owns(st, st.agents[a].session)
    ensures LiveTrackExactly(after)
  {
    forall a | a in after.agents && Owns(after, after.agents[a].session) ensures TracksExactly(after, a) {
      assert TracksExactly(st, a);
    }
  }

  /** A step keeps this exactly if it does not install a connection that restores too little. */
  lemma StepTracksIff(st: State, e: Event)
    requires Inv(st) && LiveTrackExactly(st) && Legal(st, e)
    ensures LiveTrackExactly(Step(st, e)) <==> RestoresAll(st, e)
  {
    match e
    case InstallConn(s) =>
      InstallTracksIff(st, s);
      assert Owns(Install(st, s), s);
      if RestoresAll(st, e) { InstallKeepsTracking(st, s); }
    case JoinEvent(s, room) => JoinKeepsTracking(st, s, room);
    case LeaveEvent(s, room) => LeaveKeepsTracking(st, s, room);
    case Cleanup(s) => CleanupKeepsTracking(st, s);
    case SpeakEvent(s, room) => SpeakKeepsTracking(st, s, room);
    case _ =>
      forall a | a in Step(st, e).agents ensures EntryOk(st, a) { }
      QuietStepKeepsTracking(st, Step(st, e));
  }

  /** In every run, live connections track exactly the rooms they are in at all times if and
      only if every install restores all rooms its agent is in. */
  lemma TrackedThroughoutIff(p: set<Room>, run: History, last: State)
    requires IsHistory(p, run, last)
    ensures (LiveTrackExactly(last) && forall i :: 0 <= i < |run| ==> LiveTrackExactly(run[i].st)) <==>
      (forall i :: 0 <= i < |run| ==> RestoresAll(run[i].st, run[i].e))
  {
    forall st, e, next | Inv(st) && LeadsTo(st, e, next)
      ensures Inv(next) && (LiveTrackExactly(st) ==> (LiveTrackExactly(next) <==> RestoresAll(st, e)))
    {
      StepKeepsInv(st, e);
      if LiveTrackExactly(st) { StepTracksIff(st, e); }
    }
    StartIsInv(p);
    ThroughoutIff(LeadsTo, Inv, LiveTrackExactly, RestoresAll, Start(p), run, last);
  }

  // --- Rooms ---

  ghost predicate MembersHaveRooms(st: State) {
    forall room :: st.rooms(room).members != [] ==> RoomExists(st, room)
  }

  /** What an installed connection restores still exists. */
  ghost predicate RestoresExisting(st: State, e: Event) {
    e.InstallConn? && e.s in st.sessions && st.sessions[e.s].Claimed? ==>
      forall room :: room in RoomsOf(st.sessions[e.s].restored) ==> RoomExists(st, room)
  }

  /** Only an install can put an agent into a room that does not exist, and it does so exactly
      when it restores one. */
  lemma StepHasRoomsIff(st: State, e: Event)
    requires Inv(st) && MembersHaveRooms(st) && Legal(st, e)
    ensures MembersHaveRooms(Step(st, e)) <==> RestoresExisting(st, e)
  {
    match e
    case InstallConn(s) => InstallHasRoomsIff(st, s);
    case Cleanup(s) =>
      if Owns(st, s) {
        forall room | BeginCleanup(st, s).rooms(room).members != [] ensures RoomExists(BeginCleanup(st, s), room) {
          CleanupRoom(st, s, room);
          assert BeginCleanup(st, s).rooms(room).members[0] in BeginCleanup(st, s).rooms(room).members;
        }
      }
    case SpeakEvent(s, room) => AdvanceKeepsOk(st.rooms(room), st.sessions[s].agent);
    case _ =>
  }

  lemma InstallHasRoomsIff(st: State, s: SessionId)
    requires Inv(st) && MembersHaveRooms(st) && Legal(st, InstallConn(s))
    ensures MembersHaveRooms(Install(st, s)) <==> RestoresExisting(st, InstallConn(s))
  {
    var after, agent := Install(st, s), st.sessions[s].agent;
    forall room ensures after.rooms(room).members != [] <==> st.rooms(room).members != [] || room in RoomsOf(st.sessions[s].restored) {
      InstallMembers(st, s, room);
      if room in RoomsOf(st.sessions[s].restored) { assert agent in after.rooms(room).members; }
    }
  }

  /** In every run, rooms with members exist at all times if and only if no install restores
      a room that does not exist. */
  lemma RoomsThroughoutIff(p: set<Room>, run: History, last: State)
    requires IsHistory(p, run, last)
    ensures (MembersHaveRooms(last) && forall i :: 0 <= i < |run| ==> MembersHaveRooms(run[i].st)) <==>
      (forall i :: 0 <= i < |run| ==> RestoresExisting(run[i].st, run[i].e))
  {
    forall st, e, next | Inv(st) && LeadsTo(st, e, next)
      ensures Inv(next) && (MembersHaveRooms(st) ==> (MembersHaveRooms(next) <==> RestoresExisting(st, e)))
    {
      StepKeepsInv(st, e);
      if MembersHaveRooms(st) { StepHasRoomsIff(st, e); }
    }
    StartIsInv(p);
    ThroughoutIff(LeadsTo, Inv, MembersHaveRooms, RestoresExisting, Start(p), run, last);
  }
}
