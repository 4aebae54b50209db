/** Membership, registration and tracking over every run of the session protocol. */
module SessionRuns {
  import opened Wrappers
  import opened Broker
  import opened Maps
  import opened Runs
  import opened Sessions

  // --- What every run keeps ---

  ghost predicate InNoRoom(st: State, agent: Agent) {
    forall room :: agent !in st.rooms(room).members
  }

  ghost predicate MemberOf(st: State, agent: Agent, tracked: set<Room>) {
    forall room :: room in tracked ==> agent in st.rooms(room).members
  }

  /** The session of an entry is the last one installed for its agent. It is live, and then
      every tracked room is a membership, or it has left all rooms in its cleanup. */
  ghost predicate EntryOk(st: State, a: Agent) {
    a in st.agents ==>
      var c := st.agents[a];
      && c.session in st.sessions && a in st.latest && st.latest[a] == c.session
      && ((st.sessions[c.session] == Live(a) && MemberOf(st, a, c.tracked))
          || (st.sessions[c.session] == Cleaning(a) && InNoRoom(st, a)))
  }

  ghost predicate RoomsOk(st: State) {
    forall room :: RoomOk(st.rooms(room))
  }

  ghost predicate Inv(st: State) {
    RoomsOk(st) && forall a :: EntryOk(st, a)
  }

  lemma StartIsInv(permanent: set<Room>)
    ensures Inv(Start(permanent))
  {
  }

  /** A step that changes nothing about the agent's memberships, its entry or that entry's session. */
  lemma UntouchedEntry(st: State, after: State, a: Agent)
    requires EntryOk(st, a)
    requires forall room :: a in after.rooms(room).members <==> a in st.rooms(room).members
    requires a in after.agents ==> a in st.agents && after.agents[a] == st.agents[a]
    requires a in st.latest ==> a in after.latest && after.latest[a] == st.latest[a]
    requires a in st.agents ==> (st.agents[a].session in after.sessions
                                 && after.sessions[st.agents[a].session] == st.sessions[st.agents[a].session])
    ensures EntryOk(after, a)
  {
  }

  lemma ClaimKeepsInv(st: State, e: Event)
    requires Inv(st) && e.ClaimAgent? && Legal(st, e)
    ensures Inv(Step(st, e))
  {
    forall a ensures EntryOk(Step(st, e), a) {
      assert EntryOk(st, a);
      UntouchedEntry(st, Step(st, e), a);
    }
  }

  lemma InstallMembers(st: State, s: SessionId, room: Room)
    requires RoomOk(st.rooms(room)) && Legal(st, InstallConn(s))
    ensures RoomOk(Install(st, s).rooms(room))
    ensures forall a :: a in Install(st, s).rooms(room).members <==>
      a in st.rooms(room).members || (a == st.sessions[s].agent && room in RoomsOf(st.sessions[s].restored))
  {
    JoinExact(st.rooms(room), st.sessions[s].agent);
  }

  lemma InstallKeepsInv(st: State, s: SessionId)
    requires Inv(st) && Legal(st, InstallConn(s))
    ensures Inv(Install(st, s))
  {
    var agent, after := st.sessions[s].agent, Install(st, s);
    forall room ensures RoomOk(after.rooms(room)) && forall a :: a != agent ==> (a in after.rooms(room).members <==> a in st.rooms(room).members) {
      InstallMembers(st, s, room);
    }
    forall a ensures EntryOk(after, a) {
      assert EntryOk(st, a);
      if a != agent {
        UntouchedEntry(st, after, a);
      } else {
        forall room | room in RoomsOf(st.sessions[s].restored) ensures agent in after.rooms(room).members { InstallMembers(st, s, room); }
      }
    }
  }

  lemma JoinKeepsInv(st: State, s: SessionId, room: Room)
    requires Inv(st) && Acts(st, s)
    ensures Inv(JoinRoom(st, s, room).0)
  {
    var agent := st.sessions[s].agent;
    var after := JoinRoom(st, s, room).0;
    JoinExact(st.rooms(room), agent);
    forall a ensures EntryOk(after, a) {
      assert EntryOk(st, a);
      if a != agent { UntouchedEntry(st, after, a); }
    }
  }

  lemma LeaveKeepsInv(st: State, s: SessionId, room: Room)
    requires Inv(st) && Acts(st, s)
    ensures Inv(LeaveRoom(st, s, room).0)
  {
    var agent := st.sessions[s].agent;
    var after := LeaveRoom(st, s, room).0;
    LeaveExact(st.rooms(room), agent);
    forall a ensures EntryOk(after, a) {
      assert EntryOk(st, a);
      if a != agent { UntouchedEntry(st, after, a); }
    }
  }

  lemma SpeakKeepsInv(st: State, s: SessionId, room: Room)
    requires Inv(st) && Acts(st, s)
    ensures Inv(Speak(st, s, room).0)
  {
    AdvanceKeepsOk(st.rooms(room), st.sessions[s].agent);
    var after := Speak(st, s, room).0;
    forall a ensures EntryOk(after, a) {
      assert EntryOk(st, a);
      UntouchedEntry(st, after, a);
    }
  }

  /** What an owning session's cleanup does to one room. */
  lemma CleanupRoom(st: State, s: SessionId, room: Room)
    requires RoomOk(st.rooms(room)) && Owns(st, s)
    ensures var agent, after := st.sessions[s].agent, BeginCleanup(st, s).rooms(room);
      RoomOk(after) && (after == Leave(st.rooms(room), agent) || (after == NOBODY && Leave(st.rooms(room), agent).members == []))
    ensures forall a :: a in BeginCleanup(st, s).rooms(room).members <==> a in st.rooms(room).members && a != st.sessions[s].agent
  {
    var agent := st.sessions[s].agent;
    LeaveExact(st.rooms(room), agent);
    if room in Emptied(st, agent) {
      assert BeginCleanup(st, s).rooms(room) == NOBODY;
      assert forall a :: a in Leave(st.rooms(room), agent).members ==> Leave(st.rooms(room), agent).members != [];
    } else {
      assert BeginCleanup(st, s).rooms(room) == LeaveEach(st.rooms, agent)(room);
      assert LeaveEach(st.rooms, agent)(room) == Leave(st.rooms(room), agent);
    }
  }

  lemma CleanupKeepsInv(st: State, s: SessionId)
    requires Inv(st) && Legal(st, Cleanup(s))
    ensures Inv(BeginCleanup(st, s))
  {
    var agent := st.sessions[s].agent;
    var after := BeginCleanup(st, s);
    if Owns(st, s) {
      forall room ensures RoomOk(after.rooms(room)) && forall a :: a in after.rooms(room).members <==> a in st.rooms(room).members && a != agent {
        CleanupRoom(st, s, room);
      }
    }
    forall a ensures EntryOk(after, a) {
      assert EntryOk(st, a);
      if a != agent || !Owns(st, s) { UntouchedEntry(st, after, a); }
    }
  }

  lemma RemoveKeepsInv(st: State, s: SessionId)
    requires Inv(st) && Legal(st, RemoveEntry(s))
    ensures Inv(FinishCleanup(st, s))
  {
    var after := FinishCleanup(st, s);
    forall a ensures EntryOk(after, a) {
      assert EntryOk(st, a);
      if a != st.sessions[s].agent { UntouchedEntry(st, after, a); }
    }
  }

  lemma StepKeepsInv(st: State, e: Event)
    requires Inv(st) && Legal(st, e)
    ensures Inv(Step(st, e))
  {
    match e
    case ClaimAgent(_, _, _, _, _, _) => ClaimKeepsInv(st, e);
    case InstallConn(s) => InstallKeepsInv(st, s);
    case JoinEvent(s, room) => JoinKeepsInv(st, s, room);
    case LeaveEvent(s, room) => LeaveKeepsInv(st, s, room);
    case SpeakEvent(s, room) => SpeakKeepsInv(st, s, room);
    case Cleanup(s) => CleanupKeepsInv(st, s);
    case RemoveEntry(s) => RemoveKeepsInv(st, s);
    case _ =>
      forall a ensures EntryOk(Step(st, e), a) {
        assert EntryOk(st, a);
        UntouchedEntry(st, Step(st, e), a);
      }
  }

  /** Over every run, rooms are sound and every room that a live entry tracks is a membership. */
  lemma TrackedAreMemberships(p: set<Room>, run: seq<Moment<State, Event>>, last: State)
    requires IsHistory(p, run, last)
    ensures Inv(last)
    ensures forall s :: Owns(last, s) ==> Acts(last, s) && MemberOf(last, last.sessions[s].agent, last.agents[last.sessions[s].agent].tracked)
  {
    forall st, e, next | Inv(st) && LeadsTo(st, e, next) ensures Inv(next) { StepKeepsInv(st, e); }
    StartIsInv(p);
    RunInvariant(LeadsTo, Inv, Start(p), run, last);
    forall s | Owns(last, s)
      ensures Acts(last, s) && MemberOf(last, last.sessions[s].agent, last.agents[last.sessions[s].agent].tracked)
    {
      assert EntryOk(last, last.sessions[s].agent);
    }
  }

  // --- Cleanups, takeovers, reconnects ---

  /** A later session of the same agent was installed. */
  predicate Superseded(st: State, s: SessionId) {
    s in st.sessions && st.sessions[s].Live? && st.sessions[s].agent in st.latest && st.latest[st.sessions[s].agent] != s
  }

  /** The session has ended, or is superseded and still to run its cleanup. */
  predicate OutOfPlay(st: State, s: SessionId) {
    Superseded(st, s) || (s in st.sessions && st.sessions[s].Ended?)
  }

  lemma OutOfPlayStays(st: State, e: Event, s: SessionId)
    requires Inv(st) && Legal(st, e) && OutOfPlay(st, s)
    ensures OutOfPlay(Step(st, e), s)
  {
    if Superseded(st, s) { assert EntryOk(st, st.sessions[s].agent); }
  }

  /** A superseded session never regains its agent's entry and never acts again. */
  lemma SupersededStaysOut(start: State, run: seq<Moment<State, Event>>, last: State, s: SessionId)
    requires Inv(start) && Superseded(start, s) && IsRun(LeadsTo, start, run, last)
    ensures !Owns(last, s) && !Acts(last, s)
    ensures forall i :: 0 <= i < |run| ==> !Owns(run[i].st, s) && !Acts(run[i].st, s)
  {
    var out := (st: State) => Inv(st) && OutOfPlay(st, s);
    forall st, e, next | out(st) && LeadsTo(st, e, next) ensures out(next) {
      StepKeepsInv(st, e);
      OutOfPlayStays(st, e, s);
    }
    RunInvariant(LeadsTo, out, start, run, last);
    forall st | out(st) ensures !Owns(st, s) && !Acts(st, s) {
      if st.sessions[s].Live? { assert EntryOk(st, st.sessions[s].agent); }
    }
    assert out(last) && forall i :: 0 <= i < |run| ==> out(run[i].st);
  }

  /** A superseded session's cleanup changes no room, no entry, no stash. */
  lemma SupersededCleanupIsIdle(st: State, s: SessionId)
    requires Inv(st) && Superseded(st, s)
    ensures BeginCleanup(st, s) == st.(sessions := st.sessions[s := Ended])
  {
    assert EntryOk(st, st.sessions[s].agent);
  }

  /** The owning session's cleanup takes its agent, and nobody else, out of every room. */
  lemma OwningCleanupLeavesEverything(st: State, s: SessionId)
    requires Inv(st) && Owns(st, s)
    ensures var agent := st.sessions[s].agent;
      var after := FinishCleanup(BeginCleanup(st, s), s);
      && agent !in after.agents && InNoRoom(after, agent)
      && (forall room, a :: a != agent ==> (a in after.rooms(room).members <==> a in st.rooms(room).members))
      && (forall room :: room in st.ephemeral && room !in after.ephemeral ==> after.rooms(room).members == [])
  {
    var gone := Emptied(st, st.sessions[s].agent);
    forall room ensures forall a :: a in BeginCleanup(st, s).rooms(room).members <==> a in st.rooms(room).members && a != st.sessions[s].agent {
      CleanupRoom(st, s, room);
    }
  }

  /** A takeover keeps every room as it is, members, order and token, and the connection
      it replaces is superseded. */
  lemma TakeoverChangesNoRoom(st: State, prior: SessionId, s: SessionId, key: Key, noAuth: bool)
    requires Inv(st) && Owns(st, prior) && s !in st.sessions
    requires st.sessions[prior].agent !in st.stash && (noAuth || st.agents[st.sessions[prior].agent].key == key)
    ensures var agent := st.sessions[prior].agent;
      var claimed := Claim(st, s, agent, key, true, noAuth, false);
      var after := Install(claimed.0, s);
      && claimed.1 == Done
      && (forall room :: after.rooms(room) == st.rooms(room))
      && after.agents[agent].tracked == st.agents[agent].tracked && after.agents[agent].key == key
      && Owns(after, s) && Superseded(after, prior)
  {
    var agent := st.sessions[prior].agent;
    assert EntryOk(st, agent);
    forall room ensures Install(Claim(st, s, agent, key, true, noAuth, false).0, s).rooms(room) == st.rooms(room) {
      JoinExact(st.rooms(room), agent);
    }
  }

  /** The stash that an owning session's cleanup leaves for its agent: its own rooms if one
      of them is permanent, and otherwise whatever was stashed before. */
  function StashAfter(st: State, agent: Agent): Option<Stash>
    requires agent in st.agents
  {
    var c := st.agents[agent];
    if exists r :: r in c.tracked && r !in st.ephemeral then Some(Stash(c.key, c.tracked)) else Find(st.stash, agent)
  }

  /** Disconnecting and reconnecting in time brings back exactly the rooms of that stash, if
      the key is the stash's; the agent is in all of them and tracks no others. */
  lemma ReconnectRestores(st: State, s: SessionId, t: SessionId, key: Key, noAuth: bool)
    requires Inv(st) && Owns(st, s) && t !in st.sessions
    ensures var agent := st.sessions[s].agent;
      var stash := StashAfter(st, agent);
      var back := Claim(FinishCleanup(BeginCleanup(st, s), s), t, agent, key, true, noAuth, false);
      if stash.Some? && !noAuth && stash.value.key != key then back.1 == AgentIdTaken
      else
        var after := Install(back.0, t);
        && back.1 == Done && Owns(after, t) && after.agents[agent].key == key
        && after.agents[agent].tracked == (if stash.Some? then stash.value.tracked else {})
        && forall room :: agent in after.rooms(room).members <==> room in after.agents[agent].tracked
  {
    var agent := st.sessions[s].agent;
    var gone := FinishCleanup(BeginCleanup(st, s), s);
    OwningCleanupLeavesEverything(st, s);
    CleanupKeepsInv(st, s);
    RemoveKeepsInv(BeginCleanup(st, s), s);
    var back := Claim(gone, t, agent, key, true, noAuth, false).0;
    if t in back.sessions && back.sessions[t].Claimed? {
      forall room ensures agent in Install(back, t).rooms(room).members <==> room in RoomsOf(back.sessions[t].restored) {
        InstallMembers(back, t, room);
      }
    }
  }

  /** Coming back without asking to reconnect leaves that stash beside the new connection. */
  lemma StashOutlivesPlainRegistration(st: State, s: SessionId, t: SessionId, noAuth: bool)
    requires Inv(st) && Owns(st, s) && t !in st.sessions
    ensures var agent := st.sessions[s].agent;
      var after := Install(Claim(FinishCleanup(BeginCleanup(st, s), s), t, agent, st.agents[agent].key, false, noAuth, false).0, t);
      Owns(after, t) && Find(after.stash, agent) == StashAfter(st, agent) && InNoRoom(after, agent)
  {
    OwningCleanupLeavesEverything(st, s);
  }

  // --- Who may do what ---

  /** A registration is accepted if and only if nobody is in its way, with no stash to reclaim
      and no entry, or it asks to reconnect and, with authentication, its key is that of the
      stash it reclaims or else of the entry it takes over. Refused, it changes nothing. */
  lemma ClaimIff(st: State, s: SessionId, agent: Agent, key: Key, reconnect: bool, noAuth: bool, expired: bool)
    ensures var (after, reply) := Claim(st, s, agent, key, reconnect, noAuth, expired);
      var stashed := reconnect && agent in st.stash;
      && (reply == Done <==>
            || (!stashed && agent !in st.agents)
            || (stashed && (noAuth || st.stash[agent].key == key))
            || (!stashed && agent in st.agents && reconnect && (noAuth || st.agents[agent].key == key)))
      && (reply != Done ==> reply == AgentIdTaken && after == st)
      && (reply == Done ==> Find(after.stash, agent) == (if stashed then None else Find(st.stash, agent)))
  {
  }

  /** What an accepted registration will restore: a stash in time, else the rooms of the entry
      it takes over, else nothing. */
  lemma ClaimRestores(st: State, s: SessionId, agent: Agent, key: Key, reconnect: bool, noAuth: bool, expired: bool)
    requires Claim(st, s, agent, key, reconnect, noAuth, expired).1 == Done
    ensures var after := Claim(st, s, agent, key, reconnect, noAuth, expired).0;
      && after.agents == st.agents && after.rooms == st.rooms
      && s in after.sessions && after.sessions[s].Claimed? && after.sessions[s].agent == agent && after.sessions[s].key == key
      && RoomsOf(after.sessions[s].restored) ==
           if reconnect && agent in st.stash then (if expired then {} else st.stash[agent].tracked)
           else if agent in st.agents then st.agents[agent].tracked else {}
  {
  }

  /** Whoever is not in a room neither leaves it nor speaks in it, and joins it if and only if
      it exists. */
  lemma OutsiderIff(st: State, s: SessionId, room: Room)
    requires Acts(st, s) && st.sessions[s].agent !in st.rooms(room).members
    ensures LeaveRoom(st, s, room) == (st, NotInRoom) && Speak(st, s, room) == (st, NotInRoom)
    ensures var (after, reply) := JoinRoom(st, s, room);
      && (st.sessions[s].agent in after.rooms(room).members <==> room in st.ephemeral || room in st.permanent)
      && (reply == Done <==> room in st.ephemeral || room in st.permanent)
      && (reply != Done ==> reply == RoomNotFound && after == st)
  {
  }

  /** An ephemeral room is destroyed exactly when its last member goes, and a permanent one never. */
  lemma DestroyedIff(st: State, e: Event, room: Room)
    requires Inv(st) && Legal(st, e) && room in st.ephemeral
    ensures room !in Step(st, e).ephemeral <==> st.rooms(room).members != [] && Step(st, e).rooms(room).members == []
    ensures st.permanent <= Step(st, e).permanent
  {
    match e
    case InstallConn(s) => InstallEmptiesNothing(st, s, room);
    case JoinEvent(s, r) => JoinExact(st.rooms(r), st.sessions[s].agent);
    case SpeakEvent(s, r) => AdvanceKeepsOk(st.rooms(r), st.sessions[s].agent);
    case Cleanup(s) => if Owns(st, s) { CleanupDestroysIff(st, s, room); }
    case _ =>
  }

  lemma InstallEmptiesNothing(st: State, s: SessionId, room: Room)
    requires RoomsOk(st) && Legal(st, InstallConn(s))
    ensures st.rooms(room).members != [] ==> Install(st, s).rooms(room).members != []
  {
    InstallMembers(st, s, room);
    if st.rooms(room).members != [] { assert st.rooms(room).members[0] in Install(st, s).rooms(room).members; }
  }

  lemma CleanupDestroysIff(st: State, s: SessionId, room: Room)
    requires Inv(st) && Owns(st, s) && room in st.ephemeral
    ensures room !in BeginCleanup(st, s).ephemeral <==> st.rooms(room).members != [] && BeginCleanup(st, s).rooms(room).members == []
  {
    CleanupRoom(st, s, room);
  }
}
