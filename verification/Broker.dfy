/** Room membership in join order and the advisory turn token. */
module Broker {
  import opened Wrappers

  type Agent = string
  type Room = string

  /** One room: its members in join order and the holder of the turn token. */
  datatype Turn = Turn(members: seq<Agent>, holder: Option<Agent>)

  const NOBODY := Turn([], None)

  datatype LeaveOutcome = LeaveOutcome(nowEmpty: bool, newHolder: Option<Agent>, holderChanged: bool)

  function Join(t: Turn, agent: Agent): Turn {
    Turn(if agent in t.members then t.members else t.members + [agent],
         if t.holder.None? then Some(agent) else t.holder)
  }

  /** What `join_room` reports: the new holder, if the token was free. */
  function JoinReport(t: Turn, agent: Agent): Option<Agent> {
    if t.holder.None? then Some(agent) else None
  }

  function Without(members: seq<Agent>, agent: Agent): seq<Agent> {
    if members == [] then []
    else (if members[0] == agent then [] else [members[0]]) + Without(members[1..], agent)
  }

  /** Leaving with the token hands it to the longest-standing member. */
  function Leave(t: Turn, agent: Agent): Turn {
    var left := Without(t.members, agent);
    Turn(left, if t.holder != Some(agent) then t.holder else if left == [] then None else Some(left[0]))
  }

  function LeaveReport(t: Turn, agent: Agent): LeaveOutcome {
    var left := Without(t.members, agent);
    LeaveOutcome(left == [], if t.holder != Some(agent) || left == [] then None else Some(left[0]), t.holder == Some(agent))
  }

  function Position(members: seq<Agent>, agent: Agent): (i: Option<nat>)
    ensures i.Some? <==> agent in members
    ensures i.Some? ==> i.value < |members| && members[i.value] == agent && agent !in members[..i.value]
  {
    if members == [] then None
    else if members[0] == agent then Some(0)
    else
      var rest := Position(members[1..], agent);
      if rest.None? then None else Some(rest.value + 1)
  }

  function Next(i: nat, n: nat): (j: nat)
    requires i < n
    ensures j == if i + 1 < n then i + 1 else 0
  {
    (i + 1) % n
  }

  /** The token goes to whoever joined after the sender, wrapping around. */
  function Advance(t: Turn, sender: Agent): Turn {
    if t.members == [] then t.(holder := None)
    else
      var i := Position(t.members, sender);
      t.(holder := Some(if i.Some? then t.members[Next(i.value, |t.members|)] else t.members[0]))
  }

  // --- What every operation keeps ---

  predicate Distinct(members: seq<Agent>) {
    forall i, j :: 0 <= i < j < |members| ==> members[i] != members[j]
  }

  /** Members are distinct, and exactly the rooms with members have a holder, who is one of them. */
  predicate RoomOk(t: Turn) {
    && Distinct(t.members)
    && (t.holder.Some? <==> t.members != [])
    && (t.holder.Some? ==> t.holder.value in t.members)
  }

  /** Leaving drops exactly the leaver. */
  lemma {:induction false} WithoutExact(members: seq<Agent>, agent: Agent)
    requires Distinct(members)
    ensures Distinct(Without(members, agent))
    ensures forall a :: a in Without(members, agent) <==> a in members && a != agent
    ensures agent !in members ==> Without(members, agent) == members
  {
    if members != [] {
      var rest := Without(members[1..], agent);
      WithoutExact(members[1..], agent);
      assert members == [members[0]] + members[1..];
      assert members[0] !in members[1..] && members[0] !in rest;
    }
  }

  /** Leaving keeps everyone else in join order. */
  lemma {:induction false} WithoutKeepsOrder(before: seq<Agent>, agent: Agent, after: seq<Agent>)
    requires agent !in before && agent !in after
    ensures Without(before + [agent] + after, agent) == before + after
  {
    if before == [] {
      assert [agent] + after == before + [agent] + after;
      assert ([agent] + after)[1..] == after;
      NobodyLeaves(after, agent);
    } else {
      assert (before + [agent] + after)[1..] == before[1..] + [agent] + after;
      WithoutKeepsOrder(before[1..], agent, after);
    }
  }

  lemma {:induction false} NobodyLeaves(members: seq<Agent>, agent: Agent)
    requires agent !in members
    ensures Without(members, agent) == members
  {
    if members != [] { NobodyLeaves(members[1..], agent); }
  }

  /** Joining keeps the room sound, never moves the token from anyone, and reports a new
      holder exactly when the holder changed. */
  lemma JoinExact(t: Turn, agent: Agent)
    requires RoomOk(t)
    ensures RoomOk(Join(t, agent))
    ensures forall a :: a in Join(t, agent).members <==> a in t.members || a == agent
    ensures t.members <= Join(t, agent).members
    ensures JoinReport(t, agent) == if Join(t, agent).holder != t.holder then Join(t, agent).holder else None
    ensures agent in t.members ==> Join(t, agent) == t
  {
  }

  /** Of those who stay, `a` has been a member the longest. */
  predicate LongestBeside(members: seq<Agent>, leaver: Agent, a: Agent) {
    a != leaver && exists i :: 0 <= i < |members| && members[i] == a && forall j :: 0 <= j < i ==> members[j] == leaver
  }

  /** Leaving keeps the room sound, hands the token of a leaving holder to whoever of the
      others joined first, and its report says whether the room emptied, whether the holder
      changed, and to whom. */
  lemma LeaveExact(t: Turn, agent: Agent)
    requires RoomOk(t)
    ensures RoomOk(Leave(t, agent))
    ensures forall a :: a in Leave(t, agent).members <==> a in t.members && a != agent
    ensures var out, after := LeaveReport(t, agent), Leave(t, agent);
      && out.nowEmpty == (after.members == [])
      && out.holderChanged == (after.holder != t.holder)
      && out.newHolder == (if after.holder != t.holder then after.holder else None)
    ensures agent !in t.members ==> Leave(t, agent) == t
    ensures t.holder != Some(agent) ==> Leave(t, agent).holder == t.holder
    ensures t.holder == Some(agent) && |t.members| > 1 ==>
      Leave(t, agent).holder.Some? && LongestBeside(t.members, agent, Leave(t, agent).holder.value)
  {
    WithoutExact(t.members, agent);
    if Without(t.members, agent) != [] {
      assert Without(t.members, agent)[0] in Without(t.members, agent);
      FirstLeft(t.members, agent);
    }
    if |t.members| > 1 {
      var other := if t.members[0] == agent then t.members[1] else t.members[0];
      assert other in t.members && other != agent;
    }
  }

  lemma {:induction false} FirstLeft(members: seq<Agent>, agent: Agent)
    requires Without(members, agent) != []
    ensures LongestBeside(members, agent, Without(members, agent)[0])
  {
    if members[0] != agent {
      assert members[0] == Without(members, agent)[0];
    } else {
      FirstLeft(members[1..], agent);
      var a := Without(members[1..], agent)[0];
      var i :| 0 <= i < |members[1..]| && members[1..][i] == a && forall j :: 0 <= j < i ==> members[1..][j] == agent;
      assert Without(members, agent) == Without(members[1..], agent);
      assert members[i + 1] == a;
      forall j | 0 <= j < i + 1 ensures members[j] == agent { if j > 0 { assert members[1..][j - 1] == agent; } }
    }
  }

  /** A newcomer who leaves again leaves no trace. */
  lemma LeaveUndoesJoin(t: Turn, agent: Agent)
    requires RoomOk(t) && agent !in t.members
    ensures Leave(Join(t, agent), agent) == t
  {
    WithoutKeepsOrder(t.members, agent, []);
    assert t.members + [agent] + [] == t.members + [agent];
    assert t.members + [] == t.members;
  }

  /** The token moves on from the i-th member, to another one if there is another one. */
  lemma AdvanceFrom(t: Turn, i: nat)
    requires RoomOk(t) && i < |t.members|
    ensures Advance(t, t.members[i]) == t.(holder := Some(t.members[Next(i, |t.members|)]))
    ensures |t.members| > 1 ==> Advance(t, t.members[i]).holder != Some(t.members[i])
  {
    PositionUnique(t.members, i);
  }

  lemma AdvanceKeepsOk(t: Turn, sender: Agent)
    requires RoomOk(t)
    ensures RoomOk(Advance(t, sender)) && Advance(t, sender).members == t.members
  {
    if sender in t.members {
      var i := Position(t.members, sender).value;
      AdvanceFrom(t, i);
      assert t.members[Next(i, |t.members|)] in t.members;
    }
  }

  /** From a sender who is not in the room it goes to whoever joined first, and an empty room
      has no token. */
  lemma AdvanceByOutsider(t: Turn, sender: Agent)
    requires sender !in t.members
    ensures if t.members == [] then Advance(t, sender) == t.(holder := None) else Advance(t, sender) == t.(holder := Some(t.members[0]))
  {
  }

  // --- Round robin ---

  /** The holder sends. */
  function Pass(t: Turn): Turn {
    if t.holder.None? then t else Advance(t, t.holder.value)
  }

  function AfterTurns(t: Turn, n: nat): Turn {
    if n == 0 then t else Pass(AfterTurns(t, n - 1))
  }

  lemma PositionUnique(members: seq<Agent>, i: nat)
    requires Distinct(members) && i < |members|
    ensures Position(members, members[i]) == Some(i)
  {
    var p := Position(members, members[i]);
    assert p.Some? && members[p.value] == members[i];
  }

  predicate HolderAt(t: Turn, i: nat) {
    RoomOk(t) && i < |t.members| && t.holder == Some(t.members[i])
  }

  lemma PassFrom(t: Turn, i: nat)
    requires HolderAt(t, i)
    ensures Pass(t) == t.(holder := Some(t.members[Next(i, |t.members|)])) && HolderAt(Pass(t), Next(i, |t.members|))
  {
    AdvanceFrom(t, i);
  }

  /** The index `n` places after `i`, around the end. */
  function Ahead(i: nat, n: nat, size: nat): nat
    requires i < size && n <= size
    ensures Ahead(i, n, size) < size
  {
    if i + n < size then i + n else i + n - size
  }

  lemma {:induction false} TurnsRotate(t: Turn, i: nat, n: nat)
    requires HolderAt(t, i) && n <= |t.members|
    ensures var j := Ahead(i, n, |t.members|);
      AfterTurns(t, n) == t.(holder := Some(t.members[j])) && HolderAt(AfterTurns(t, n), j)
  {
    if n > 0 {
      TurnsRotate(t, i, n - 1);
      PassFrom(AfterTurns(t, n - 1), Ahead(i, n - 1, |t.members|));
      NextAhead(i, n, |t.members|);
    }
  }

  lemma NextAhead(i: nat, n: nat, size: nat)
    requires i < size && 0 < n <= size
    ensures Next(Ahead(i, n - 1, size), size) == Ahead(i, n, size)
  {
  }

  /** With fixed members, one round of holder sends gives the token to every member exactly
      once, in join order from the current holder, and returns it to where it started. */
  lemma RoundRobin(t: Turn, i: nat)
    requires HolderAt(t, i)
    ensures var round := t.members[i..] + t.members[..i];
      && multiset(round) == multiset(t.members)
      && forall n :: 0 <= n < |t.members| ==> AfterTurns(t, n).holder == Some(round[n])
    ensures AfterTurns(t, |t.members|) == t
  {
    assert t.members == t.members[..i] + t.members[i..];
    forall n | 0 <= n < |t.members| ensures AfterTurns(t, n).holder == Some((t.members[i..] + t.members[..i])[n]) {
      TurnsRotate(t, i, n);
    }
    TurnsRotate(t, i, |t.members|);
  }

  // --- The broker ---

  function TurnOf(members: map<Room, seq<Agent>>, holders: map<Room, Agent>, room: Room): Turn {
    Turn(if room in members then members[room] else [], if room in holders then Some(holders[room]) else None)
  }

  /** The two tables of the broker, one entry per room. */
  class Tables {
    var roomMembers: map<Room, seq<Agent>>
    var turnHolders: map<Room, Agent>

    constructor ()
      ensures forall room :: View()(room) == NOBODY
    {
      roomMembers, turnHolders := map[], map[];
    }

    ghost function View(): Room -> Turn
      reads this
    {
      var members, holders := roomMembers, turnHolders;
      room => TurnOf(members, holders, room)
    }

    function MembersOf(room: Room): (members: seq<Agent>)
      reads this
      ensures members == View()(room).members
    {
      if room in roomMembers then roomMembers[room] else []
    }

    method JoinRoom(agent: Agent, room: Room) returns (newHolder: Option<Agent>)
      modifies this
      ensures View()(room) == Join(old(View()(room)), agent) && newHolder == JoinReport(old(View()(room)), agent)
      ensures forall r :: r != room ==> View()(r) == old(View()(r))
    {
      var members := if room in roomMembers then roomMembers[room] else [];
      roomMembers := roomMembers[room := if agent in members then members else members + [agent]];
      if room !in turnHolders {
        turnHolders := turnHolders[room := agent];
        return Some(agent);
      }
      newHolder := None;
    }

    static method Retain(members: seq<Agent>, agent: Agent) returns (kept: seq<Agent>)
      ensures kept == Without(members, agent)
    {
      kept := [];
      var i := 0;
      assert members[0..] == members;
      while i < |members|
        invariant 0 <= i <= |members|
        invariant kept + Without(members[i..], agent) == Without(members, agent)
      {
        assert members[i..][1..] == members[i + 1..];
        if members[i] != agent { kept := kept + [members[i]]; }
        i := i + 1;
      }
    }

    method LeaveRoom(agent: Agent, room: Room) returns (out: LeaveOutcome)
      modifies this
      ensures View()(room) == Leave(old(View()(room)), agent) && out == LeaveReport(old(View()(room)), agent)
      ensures forall r :: r != room ==> View()(r) == old(View()(r))
    {
      var wasHolder := room in turnHolders && turnHolders[room] == agent;
      var left: seq<Agent> := [];
      if room in roomMembers {
        left := Retain(roomMembers[room], agent);
        roomMembers := roomMembers[room := left];
      }
      if !wasHolder { return LeaveOutcome(left == [], None, false); }
      if left == [] {
        turnHolders := turnHolders - {room};
        return LeaveOutcome(true, None, true);
      }
      turnHolders := turnHolders[room := left[0]];
      out := LeaveOutcome(false, Some(left[0]), true);
    }

    /** The rooms the agent was in, each with the outcome of leaving it. */
    method LeaveAllRooms(agent: Agent) returns (outcomes: map<Room, LeaveOutcome>)
      modifies this
      ensures forall r :: View()(r) == if agent in old(View()(r)).members then Leave(old(View()(r)), agent) else old(View()(r))
      ensures forall r :: r in outcomes <==> agent in old(View()(r)).members
      ensures forall r :: r in outcomes ==> outcomes[r] == LeaveReport(old(View()(r)), agent)
    {
      ghost var was := View();
      var rooms := set r | r in roomMembers && agent in roomMembers[r];
      assert forall r :: r in rooms <==> agent in was(r).members;
      outcomes := map[];
      var todo := rooms;
      while todo != {}
        invariant todo <= rooms && outcomes.Keys == rooms - todo
        invariant forall r :: r in outcomes ==> View()(r) == Leave(was(r), agent) && outcomes[r] == LeaveReport(was(r), agent)
        invariant forall r :: r !in outcomes ==> View()(r) == was(r)
        decreases todo
      {
        var room :| room in todo;
        ghost var before, reports := View(), outcomes;
        var out := LeaveRoom(agent, room);
        outcomes := outcomes[room := out];
        todo := todo - {room};
        forall r | r in reports ensures View()(r) == Leave(was(r), agent) && outcomes[r] == LeaveReport(was(r), agent) {
          assert before(r) == Leave(was(r), agent);
        }
      }
    }

    method AdvanceTurnFrom(room: Room, sender: Agent) returns (next: Option<Agent>)
      modifies this`turnHolders
      ensures View()(room) == Advance(old(View()(room)), sender) && next == View()(room).holder
      ensures forall r :: r != room ==> View()(r) == old(View()(r))
    {
      var members := if room in roomMembers then roomMembers[room] else [];
      if members == [] {
        turnHolders := turnHolders - {room};
        return None;
      }
      var i := 0;
      while i < |members| && members[i] != sender
        invariant 0 <= i <= |members| && sender !in members[..i]
      {
        i := i + 1;
      }
      ghost var p := Position(members, sender);
      var holder := members[0];
      if i < |members| {
        assert p.value == i;
        holder := members[Next(i, |members|)];
      }
      turnHolders := turnHolders[room := holder];
      next := Some(holder);
    }

    method RemoveRoom(room: Room)
      modifies this
      ensures View()(room) == NOBODY && forall r :: r != room ==> View()(r) == old(View()(r))
    {
      roomMembers, turnHolders := roomMembers - {room}, turnHolders - {room};
    }
  }
}
