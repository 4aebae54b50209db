/** The Mac client's room state, updated in place by selections, replies and pushed messages. */
module ChatStore {
  import opened Wrappers
  import opened Sorting
  import opened RoomTransitions
  import R = RoomTransitionRuns

  class Store {
    var selectedRoomID: Option<Room>
    var roomSelectionGeneration: nat
    var joinedRoomID: Option<Room>
    var messages: seq<Message>
    var membersRoom: Option<Room>
    var isLoadingMessages: bool
    var transitions: seq<Transition>
    var refreshes: seq<Room>
    ghost var server: set<Room>

    ghost function View(): State
      reads this
    {
      State(selectedRoomID, roomSelectionGeneration, joinedRoomID, messages, membersRoom, isLoadingMessages, transitions, server, refreshes)
    }

    constructor ()
      ensures View() == IDLE && R.Inv(View())
    {
      selectedRoomID, joinedRoomID, membersRoom := None, None, None;
      roomSelectionGeneration, isLoadingMessages := 0, false;
      messages, transitions, server, refreshes := [], [], {}, [];
    }

    method SelectRoom(room: Room)
      modifies this
      ensures View() == Select(old(View()), room)
    {
      roomSelectionGeneration := roomSelectionGeneration + 1;
      selectedRoomID := Some(room);
      messages, membersRoom := [], None;
      isLoadingMessages := true;
      transitions := transitions + [Transition(room, roomSelectionGeneration, Waiting)];
    }

    method Await(i: nat, stage: Stage)
      requires i < |transitions|
      modifies this`transitions
      ensures transitions == old(transitions)[i := old(transitions)[i].(stage := stage)]
    {
      transitions := transitions[i := transitions[i].(stage := stage)];
    }

    method Resume(i: nat)
      requires i < |transitions|
      modifies this`transitions
      ensures View() == Begin(old(View()), i)
    {
      if transitions[i].generation != roomSelectionGeneration {
        Await(i, Ended(Stale));
        return;
      }
      if joinedRoomID.Some? && joinedRoomID.value != transitions[i].room {
        Await(i, Leaving(false));
        return;
      }
      JoinIfNeeded(i);
    }

    method JoinIfNeeded(i: nat)
      requires i < |transitions|
      modifies this`transitions
      ensures View() == JoinNext(old(View()), i)
    {
      if joinedRoomID != Some(transitions[i].room) {
        Await(i, Joining(false));
      } else if transitions[i].generation != roomSelectionGeneration {
        Await(i, Ended(Stale));
      } else {
        Await(i, LoadingHistory);
      }
    }

    method Left(i: nat)
      requires i < |transitions| && transitions[i].stage.Leaving?
      modifies this`joinedRoomID, this`transitions
      ensures View() == Succeed(old(View()), i, [])
    {
      joinedRoomID := None;
      JoinIfNeeded(i);
    }

    method Joined(i: nat)
      requires i < |transitions| && transitions[i].stage.Joining?
      modifies this`joinedRoomID, this`transitions
      ensures View() == Succeed(old(View()), i, [])
    {
      joinedRoomID := Some(transitions[i].room);
      Await(i, if transitions[i].generation != roomSelectionGeneration then Ended(Stale) else LoadingHistory);
    }

    /** Messages with different seqs end up in one order only; those that share one may
        come out of the dictionary in any order. */
    method HistoryLoaded(i: nat, history: seq<Message>)
      requires i < |transitions| && transitions[i].stage.LoadingHistory?
      modifies this`messages, this`transitions
      ensures var after := Succeed(old(View()), i, history);
        && View() == after.(messages := messages)
        && multiset(messages) == multiset(after.messages)
        && (IsCurrent(old(View()), i) ==> SortedBy(NumOf(), messages))
        && (DistinctKeys(NumOf(), after.messages) || !IsCurrent(old(View()), i) ==> View() == after)
    {
      if transitions[i].generation != roomSelectionGeneration || selectedRoomID != Some(transitions[i].room) {
        Await(i, Ended(Stale));
        return;
      }
      messages := MergedByID(history, messages);
      Await(i, LoadingMembers);
    }

    /** Fills a dictionary by id, then sorts its values, which come in any order. */
    static method MergedByID(history: seq<Message>, live: seq<Message>) returns (merged: seq<Message>)
      ensures SortedBy(NumOf(), merged) && multiset(merged) == multiset(Merging(history, live))
      ensures DistinctKeys(NumOf(), Merging(history, live)) ==> merged == Merging(history, live)
    {
      var all := history + live;
      var byID: map<string, Message> := map[];
      for i := 0 to |all|
        invariant forall m: Message :: (m.id in byID && byID[m.id] == m) <==> m in Latest(all[..i])
        invariant forall id :: id in byID ==> byID[id].id == id
      {
        LatestAppend(all[..i], all[i]);
        assert all[..i + 1] == all[..i] + [all[i]];
        byID := byID[all[i].id := all[i]];
      }
      assert all[..|all|] == all;
      var values := ValuesOf(byID);
      merged := Sort(NumOf(), values);
      R.LatestExact(all);
      SameOnce(values, Latest(all));
      SortedAlike(values, Latest(all));
    }

    /** A dictionary's values, in whatever order. */
    static method ValuesOf(byID: map<string, Message>) returns (values: seq<Message>)
      requires forall id :: id in byID ==> byID[id].id == id
      ensures forall m: Message :: m in values <==> m.id in byID && byID[m.id] == m
      ensures R.UniqueIds(multiset(values))
    {
      values := [];
      var todo := byID.Keys;
      while todo != {}
        invariant todo <= byID.Keys
        invariant forall m: Message :: m in values <==> m.id in byID.Keys - todo && byID[m.id] == m
        invariant R.UniqueIds(multiset(values))
        decreases todo
      {
        var id :| id in todo;
        todo := todo - {id};
        R.OneMore(values, byID[id]);
        assert multiset(values + [byID[id]]) == multiset(values) + multiset{byID[id]};
        values := values + [byID[id]];
      }
    }

    method MembersLoaded(i: nat)
      requires i < |transitions| && transitions[i].stage.LoadingMembers?
      modifies this`membersRoom, this`isLoadingMessages, this`transitions
      ensures View() == Succeed(old(View()), i, [])
    {
      if transitions[i].generation != roomSelectionGeneration || selectedRoomID != Some(transitions[i].room) {
        Await(i, Ended(Stale));
        return;
      }
      membersRoom := Some(transitions[i].room);
      isLoadingMessages := false;
      Await(i, Ended(Completed));
    }

    method MembershipChanged()
      modifies this`refreshes
      ensures View() == AskMembers(old(View()))
    {
      if selectedRoomID.None? { return; }
      refreshes := refreshes + [selectedRoomID.value];
    }

    method MembersRefreshed(i: nat, ok: bool)
      requires i < |refreshes|
      modifies this`refreshes, this`membersRoom
      ensures View() == RefreshMembers(old(View()), i, ok)
    {
      var room := refreshes[i];
      refreshes := refreshes[..i] + refreshes[i + 1..];
      if !ok || selectedRoomID != Some(room) { return; }
      membersRoom := Some(room);
    }

    method RoomDestroyed(room: Room)
      modifies this`membersRoom
      ensures View() == DestroyRoom(old(View()), room)
    {
      if selectedRoomID == Some(room) { membersRoom := None; }
    }

    method Failing(i: nat)
      requires i < |transitions|
      modifies this`isLoadingMessages, this`transitions
      ensures View() == Fail(old(View()), i)
    {
      if transitions[i].generation == roomSelectionGeneration && selectedRoomID == Some(transitions[i].room) {
        isLoadingMessages := false;
      }
      Await(i, Ended(Failed(RequestOf(transitions[i].stage))));
    }

    method HandleMessage(m: Message)
      modifies this`messages
      ensures View() == Receive(old(View()), m)
    {
      if selectedRoomID != Some(m.room) { return; }
      for i := 0 to |messages|
        invariant messages == old(messages)
        invariant !HasId(messages[..i], m.id)
      {
        if messages[i].id == m.id { assert messages[i] in messages; return; }
        assert messages[..i + 1] == messages[..i] + [messages[i]];
        R.HasIdConcat(messages[..i], [messages[i]], m.id);
      }
      assert messages[..|messages|] == messages;
      messages := Sort(NumOf(), messages + [m]);
      if |messages| > SHOWN_CAP { messages := messages[|messages| - SHOWN_CAP..]; }
    }
  }

  lemma {:induction false} LatestAppend(s: seq<Message>, m: Message)
    ensures forall x :: x in Latest(s + [m]) <==> x == m || (x in Latest(s) && x.id != m.id)
  {
    var one := [m];
    assert multiset(one) == multiset{m};
    R.LatestPrefersLater(s, one);
    assert forall x :: HasId(one, x) <==> x == m.id by {
      assert m in one;
    }
  }

  /** Sorting the same messages gives one result if their seqs differ. */
  lemma SortedAlike(s: seq<Message>, t: seq<Message>)
    requires multiset(s) == multiset(t)
    ensures SortedBy(NumOf(), Sort(NumOf(), s)) && multiset(Sort(NumOf(), s)) == multiset(Sort(NumOf(), t))
    ensures DistinctKeys(NumOf(), Sort(NumOf(), t)) ==> Sort(NumOf(), s) == Sort(NumOf(), t)
  {
    SortExact(NumOf(), s);
    SortExact(NumOf(), t);
    if DistinctKeys(NumOf(), Sort(NumOf(), t)) {
      SortedUnique(NumOf(), Sort(NumOf(), t), Sort(NumOf(), s));
    }
  }

  lemma {:induction false} SameOnce(s: seq<Message>, t: seq<Message>)
    requires R.UniqueIds(multiset(s)) && R.UniqueIds(multiset(t))
    requires forall m :: m in s <==> m in t
    ensures multiset(s) == multiset(t)
  {
    forall m ensures multiset(s)[m] == multiset(t)[m] {
      assert m in s <==> m in multiset(s);
      assert m in t <==> m in multiset(t);
    }
  }
}
