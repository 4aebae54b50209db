/** What every interleaving of selections, replies and pushed messages keeps. */
module RoomTransitionRuns {
  import opened Wrappers
  import opened Runs
  import opened Sorting
  import opened RoomTransitions

  // --- Messages ---

  /** No message is there twice, and no two messages share an id. */
  ghost predicate UniqueIds(messages: multiset<Message>) {
    && (forall m :: m in messages ==> messages[m] == 1)
    && (forall m, n :: m in messages && n in messages && m.id == n.id ==> m == n)
  }

  lemma {:induction false} LatestMembers(messages: seq<Message>)
    ensures forall m :: m in Latest(messages) ==> m in messages
    ensures forall id :: HasId(Latest(messages), id) == HasId(messages, id)
    decreases messages
  {
    if messages != [] {
      var first, rest := messages[0], Latest(messages[1..]);
      LatestMembers(messages[1..]);
      assert messages == [first] + messages[1..];
      forall id ensures HasId(Latest(messages), id) == HasId(messages, id) {
        HasIdConcat([first], messages[1..], id);
        HasIdConcat(if HasId(messages[1..], first.id) then [] else [first], rest, id);
      }
    }
  }

  lemma {:induction false} LatestUnique(messages: seq<Message>)
    ensures UniqueIds(multiset(Latest(messages)))
    decreases messages
  {
    if messages != [] {
      var first, rest := messages[0], Latest(messages[1..]);
      LatestUnique(messages[1..]);
      if !HasId(messages[1..], first.id) {
        LatestMembers(messages[1..]);
        OneMore(rest, first);
        assert multiset([first] + rest) == multiset(rest) + multiset{first};
      } else {
        assert Latest(messages) == rest;
      }
    }
  }

  lemma LatestExact(messages: seq<Message>)
    ensures UniqueIds(multiset(Latest(messages)))
    ensures forall m :: m in Latest(messages) ==> m in messages
    ensures forall id :: HasId(Latest(messages), id) == HasId(messages, id)
  {
    LatestUnique(messages);
    LatestMembers(messages);
  }

  lemma HasIdConcat(a: seq<Message>, b: seq<Message>, id: string)
    ensures HasId(a + b, id) == (HasId(a, id) || HasId(b, id))
  {
    if HasId(a, id) { var m :| m in a && m.id == id; assert m in a + b; }
    if HasId(b, id) { var m :| m in b && m.id == id; assert m in a + b; }
  }

  lemma {:induction false} LatestPrefersLater(a: seq<Message>, b: seq<Message>)
    requires UniqueIds(multiset(b))
    ensures forall m :: m in Latest(a + b) <==> m in b || (m in Latest(a) && !HasId(b, m.id))
    decreases a
  {
    if a == [] {
      assert a + b == b;
      LatestOfUnique(b);
    } else {
      assert (a + b)[1..] == a[1..] + b && (a + b)[0] == a[0];
      LatestPrefersLater(a[1..], b);
      HasIdConcat(a[1..], b, a[0].id);
      assert forall m :: m in Latest(a) <==> m in Latest(a[1..]) || (m == a[0] && !HasId(a[1..], a[0].id));
    }
  }

  lemma {:induction false} LatestOfUnique(b: seq<Message>)
    requires UniqueIds(multiset(b))
    ensures Latest(b) == b
    decreases b
  {
    if b != [] {
      assert b == [b[0]] + b[1..];
      assert multiset(b) == multiset{b[0]} + multiset(b[1..]);
      assert b[0] in multiset(b);
      forall m | m in b[1..] ensures m.id != b[0].id { assert m in multiset(b[1..]) && m in multiset(b); }
      forall m, n | m in multiset(b[1..]) && n in multiset(b[1..]) && m.id == n.id ensures m == n { assert m in multiset(b) && n in multiset(b); }
      forall m | m in multiset(b[1..]) ensures multiset(b[1..])[m] == 1 { assert m in multiset(b); }
      LatestOfUnique(b[1..]);
    }
  }

  /** What is on screen: messages of one room, each once, in seq order. */
  ghost predicate Shown(messages: seq<Message>, room: Option<Room>) {
    && SortedBy(NumOf(), messages) && UniqueIds(multiset(messages))
    && forall m :: m in messages ==> room == Some(m.room)
  }

  /** Merging keeps every live message, adds exactly the history that is not live already,
      and is shown in order. */
  lemma MergingExact(history: seq<Message>, live: seq<Message>, room: Room)
    requires Shown(live, Some(room))
    requires forall m :: m in history ==> m.room == room
    ensures Shown(Merging(history, live), Some(room))
    ensures forall m :: m in Merging(history, live) <==> m in live || (m in Latest(history) && !HasId(live, m.id))
    ensures forall id :: HasId(Merging(history, live), id) == (HasId(history, id) || HasId(live, id))
  {
    LatestExact(history + live);
    LatestPrefersLater(history, live);
    SortExact(NumOf(), Latest(history + live));
    forall id ensures HasId(Merging(history, live), id) == (HasId(history, id) || HasId(live, id)) {
      HasIdConcat(history, live, id);
      assert HasId(Merging(history, live), id) == HasId(Latest(history + live), id);
    }
  }

  lemma SuffixShown(messages: seq<Message>, n: nat, room: Option<Room>)
    requires Shown(messages, room)
    ensures Shown(LastOf(messages, n), room) && |LastOf(messages, n)| <= n
  {
    if |messages| > n {
      var k := |messages| - n;
      assert messages == messages[..k] + messages[k..];
      assert multiset(messages) == multiset(messages[..k]) + multiset(messages[k..]);
      forall m | m in multiset(messages[k..]) ensures m in multiset(messages) && multiset(messages[k..])[m] == 1 { }
    }
  }

  lemma InsertedShown(messages: seq<Message>, m: Message, room: Room) returns (all: seq<Message>)
    requires Shown(messages, Some(room)) && m.room == room && !HasId(messages, m.id)
    ensures all == Sort(NumOf(), messages + [m]) && Shown(all, Some(room))
    ensures multiset(all) == multiset(messages) + multiset{m} && |all| == |messages| + 1
    ensures forall x :: x in all <==> x in messages || x == m
  {
    all := Sort(NumOf(), messages + [m]);
    SortExact(NumOf(), messages + [m]);
    assert multiset(messages + [m]) == multiset(messages) + multiset{m};
    OneMore(messages, m);
  }

  lemma OneMore(messages: seq<Message>, m: Message)
    requires UniqueIds(multiset(messages)) && !HasId(messages, m.id)
    ensures UniqueIds(multiset(messages) + multiset{m})
  {
    assert m !in messages;
    assert forall x :: x in multiset(messages) ==> x in messages;
  }

  /** Dropping from the front drops the lowest. */
  lemma SuffixIsHighest(messages: seq<Message>, n: nat, x: Message, y: Message)
    requires SortedBy(NumOf(), messages) && x in LastOf(messages, n) && y in messages && y !in LastOf(messages, n)
    ensures y.num <= x.num
  {
    var k := |messages| - n;
    forall l | k <= l < |messages| ensures messages[l] in messages[k..] {
      assert messages[k..][l - k] == messages[l];
    }
    var i :| 0 <= i < |messages| && messages[i] == y;
    var j :| 0 <= j < n && messages[k..][j] == x;
    assert messages[k + j] == x;
    assert NumOf()(messages[i]) <= NumOf()(messages[k + j]);
  }

  /** A message already shown changes nothing; a new one is added, and beyond 200 only the
      oldest make room. */
  lemma AppendExact(messages: seq<Message>, m: Message, room: Room)
    requires Shown(messages, Some(room)) && m.room == room
    ensures Shown(Append(messages, m), Some(room))
    ensures HasId(messages, m.id) ==> Append(messages, m) == messages
    ensures !HasId(messages, m.id) ==> |Append(messages, m)| <= SHOWN_CAP
    ensures !HasId(messages, m.id) && |messages| < SHOWN_CAP ==> multiset(Append(messages, m)) == multiset(messages) + multiset{m}
    ensures forall x, y :: x in Append(messages, m) && (y in messages || y == m) && y !in Append(messages, m) && !HasId(messages, m.id) ==> y.num <= x.num
  {
    if !HasId(messages, m.id) {
      var all := InsertedShown(messages, m, room);
      SuffixShown(all, SHOWN_CAP, Some(room));
      forall x, y | x in LastOf(all, SHOWN_CAP) && y in all && y !in LastOf(all, SHOWN_CAP) ensures y.num <= x.num {
        SuffixIsHighest(all, SHOWN_CAP, x, y);
      }
    }
  }

  // --- The invariant ---

  predicate Active(stage: Stage) {
    stage != Waiting && !stage.Ended?
  }

  ghost predicate ChainOk(st: State) {
    && st.generation == |st.tasks|
    && (forall i :: 0 <= i < |st.tasks| ==> st.tasks[i].generation == i + 1)
    && (forall i, j :: 0 <= i < j < |st.tasks| && st.tasks[j].stage != Waiting ==> st.tasks[i].stage.Ended?)
    && st.selected == (if st.tasks == [] then None else Some(st.tasks[|st.tasks| - 1].room))
  }

  function JoinedSet(st: State): set<Room> {
    if st.joined.Some? then {st.joined.value} else {}
  }

  /** What a transition at this stage implies about the server and `joined`. */
  predicate StageOk(st: State, t: Transition) {
    match t.stage
    case Leaving(applied) => st.joined.Some? && st.joined.value != t.room && st.server == if applied then {} else JoinedSet(st)
    case Joining(applied) => st.joined.None? && st.server == if applied then {t.room} else {}
    case LoadingHistory => st.joined == Some(t.room) && st.server == JoinedSet(st)
    case LoadingMembers => st.joined == Some(t.room) && st.server == JoinedSet(st)
    case _ => true
  }

  ghost predicate ServerOk(st: State) {
    && (forall i :: 0 <= i < |st.tasks| ==> StageOk(st, st.tasks[i]))
    && ((forall i :: 0 <= i < |st.tasks| ==> !Active(st.tasks[i].stage)) ==> st.server == JoinedSet(st))
  }

  predicate JoinedAt(how: Outcome) {
    how != Failed(Leave) && how != Failed(Join)
  }

  /** The last transition is never stale; the client is loading until it has ended, and then
      in the selected room, unless its leave or its join failed. */
  predicate LastOk(st: State) {
    if st.tasks == [] then !st.loading
    else
      var last := st.tasks[|st.tasks| - 1].stage;
      && (st.loading <==> !last.Ended?)
      && (last.Ended? ==> last.how != Stale && (st.joined == st.selected <==> JoinedAt(last.how)))
  }

  ghost predicate Inv(st: State) {
    && ChainOk(st) && ServerOk(st) && LastOk(st)
    && Shown(st.messages, st.selected)
    && (st.members.Some? ==> st.members == st.selected)
  }

  // --- Steps ---

  lemma SelectKeepsInv(st: State, room: Room)
    requires Inv(st)
    ensures Inv(Select(st, room))
  {
    var after := Select(st, room);
    forall i | 0 <= i < |after.tasks| ensures StageOk(after, after.tasks[i]) {
      if i < |st.tasks| { assert StageOk(st, st.tasks[i]); }
    }
    if forall i :: 0 <= i < |after.tasks| ==> !Active(after.tasks[i].stage) {
      assert forall i :: 0 <= i < |st.tasks| ==> st.tasks[i] == after.tasks[i];
    }
  }

  /** One transition moves while the others have ended or are waiting. */
  lemma StageKeepsInv(st: State, after: State, i: nat, stage: Stage)
    requires Inv(st) && i < |st.tasks| && !st.tasks[i].stage.Ended? && stage != Waiting
    requires forall j :: 0 <= j < i ==> st.tasks[j].stage.Ended?
    requires after == At(st, i, stage).(joined := after.joined, server := after.server, loading := after.loading,
                                        messages := after.messages, members := after.members)
    requires StageOk(after, after.tasks[i])
    requires Active(stage) || after.server == JoinedSet(after)
    requires if stage.Ended? && i == |st.tasks| - 1 then stage.how != Stale && !after.loading && (after.joined == after.selected <==> JoinedAt(stage.how))
             else after.loading == st.loading
    requires Shown(after.messages, after.selected) && (after.members.Some? ==> after.members == after.selected)
    ensures Inv(after)
  {
    forall j | 0 <= j < |after.tasks| && j != i ensures after.tasks[j] == st.tasks[j] && !Active(st.tasks[j].stage) { }
    if forall j :: 0 <= j < |after.tasks| ==> !Active(after.tasks[j].stage) {
      assert !Active(after.tasks[i].stage);
    }
  }

  /** Only the first transition that has not ended can be anywhere but waiting. */
  lemma BeforeHaveEnded(st: State, i: nat)
    requires ChainOk(st) && i < |st.tasks|
    requires st.tasks[i].stage != Waiting || (i > 0 ==> st.tasks[i - 1].stage.Ended?)
    ensures forall j :: 0 <= j < i ==> st.tasks[j].stage.Ended?
  {
    if st.tasks[i].stage == Waiting && i > 0 {
      assert forall j :: 0 <= j < i - 1 ==> st.tasks[j].stage.Ended?;
    }
  }

  lemma IdleServer(st: State, i: nat)
    requires Inv(st) && i < |st.tasks| && st.tasks[i].stage == Waiting
    requires forall j :: 0 <= j < i ==> st.tasks[j].stage.Ended?
    ensures st.server == JoinedSet(st)
  {
    forall j | 0 <= j < |st.tasks| ensures !Active(st.tasks[j].stage) {
      if j > i { assert st.tasks[j].stage == Waiting; }
    }
  }

  lemma BeginStaleKeepsInv(st: State, i: nat)
    requires Inv(st) && Legal(st, Resume(i)) && st.tasks[i].generation != st.generation
    ensures Inv(Begin(st, i))
  {
    BeforeHaveEnded(st, i);
    IdleServer(st, i);
    StageKeepsInv(st, Begin(st, i), i, Ended(Stale));
  }

  lemma BeginLeavingKeepsInv(st: State, i: nat)
    requires Inv(st) && Legal(st, Resume(i)) && st.joined.Some? && st.joined.value != st.tasks[i].room
    ensures Inv(At(st, i, Leaving(false)))
  {
    BeforeHaveEnded(st, i);
    IdleServer(st, i);
    StageKeepsInv(st, At(st, i, Leaving(false)), i, Leaving(false));
  }

  lemma BeginJoiningKeepsInv(st: State, i: nat)
    requires Inv(st) && Legal(st, Resume(i)) && (st.joined.None? || st.joined.value == st.tasks[i].room)
    requires st.tasks[i].generation == st.generation
    ensures Inv(JoinNext(st, i))
  {
    BeforeHaveEnded(st, i);
    IdleServer(st, i);
    StageKeepsInv(st, JoinNext(st, i), i, if st.joined.None? then Joining(false) else LoadingHistory);
  }

  lemma BeginKeepsInv(st: State, i: nat)
    requires Inv(st) && Legal(st, Resume(i))
    ensures Inv(Begin(st, i))
  {
    if st.tasks[i].generation != st.generation {
      BeginStaleKeepsInv(st, i);
    } else if st.joined.Some? && st.joined.value != st.tasks[i].room {
      BeginLeavingKeepsInv(st, i);
    } else {
      BeginJoiningKeepsInv(st, i);
    }
  }

  lemma ApplyKeepsInv(st: State, i: nat)
    requires Inv(st) && Legal(st, ServerApplies(i))
    ensures Inv(Apply(st, i))
  {
    BeforeHaveEnded(st, i);
    assert StageOk(st, st.tasks[i]);
    StageKeepsInv(st, Apply(st, i), i, Apply(st, i).tasks[i].stage);
  }

  lemma LoadedKeepsInv(st: State, i: nat, history: seq<Message>)
    requires Inv(st) && Legal(st, ReplyOk(i, history)) && st.tasks[i].stage.LoadingHistory? && IsCurrent(st, i)
    ensures Inv(Succeed(st, i, history))
  {
    BeforeHaveEnded(st, i);
    assert StageOk(st, st.tasks[i]);
    MergingExact(history, st.messages, st.tasks[i].room);
    StageKeepsInv(st, Succeed(st, i, history), i, LoadingMembers);
  }

  lemma SucceedKeepsInv(st: State, i: nat, history: seq<Message>)
    requires Inv(st) && Legal(st, ReplyOk(i, history))
    ensures Inv(Succeed(st, i, history))
  {
    if st.tasks[i].stage.LoadingHistory? && IsCurrent(st, i) {
      LoadedKeepsInv(st, i, history);
    } else {
      BeforeHaveEnded(st, i);
      assert StageOk(st, st.tasks[i]);
      StageKeepsInv(st, Succeed(st, i, history), i, Succeed(st, i, history).tasks[i].stage);
    }
  }

  lemma FailKeepsInv(st: State, i: nat)
    requires Inv(st) && Legal(st, ReplyError(i))
    ensures Inv(Fail(st, i))
  {
    BeforeHaveEnded(st, i);
    assert StageOk(st, st.tasks[i]);
    StageKeepsInv(st, Fail(st, i), i, Fail(st, i).tasks[i].stage);
  }

  lemma ReceiveKeepsInv(st: State, m: Message)
    requires Inv(st)
    ensures Inv(Receive(st, m))
  {
    if st.selected == Some(m.room) {
      AppendExact(st.messages, m, m.room);
      OnlyShown(st, st.(messages := Append(st.messages, m)));
    }
  }

  /** What is shown changes, and no transition moves. */
  lemma OnlyShown(st: State, after: State)
    requires Inv(st) && after == st.(messages := after.messages, members := after.members, refreshes := after.refreshes)
    requires Shown(after.messages, st.selected) && (after.members.Some? ==> after.members == st.selected)
    ensures Inv(after)
  {
    forall i | 0 <= i < |st.tasks| ensures StageOk(after, st.tasks[i]) {
      assert StageOk(st, st.tasks[i]);
    }
  }

  lemma StepKeepsInv(st: State, e: Event)
    requires Inv(st) && Legal(st, e)
    ensures Inv(Step(st, e))
  {
    match e
    case SelectRoom(room) => SelectKeepsInv(st, room);
    case Resume(i) => BeginKeepsInv(st, i);
    case ServerApplies(i) => ApplyKeepsInv(st, i);
    case ReplyOk(i, history) => SucceedKeepsInv(st, i, history);
    case ReplyError(i) => FailKeepsInv(st, i);
    case Push(m) => ReceiveKeepsInv(st, m);
    case _ => OnlyShown(st, Step(st, e));
  }

  lemma RunKeepsInv(run: History, st: State)
    requires IsRun(LeadsTo, IDLE, run, st)
    ensures Inv(st)
  {
    forall a, e, b | Inv(a) && LeadsTo(a, e, b) ensures Inv(b) { StepKeepsInv(a, e); }
    RunInvariant(LeadsTo, Inv, IDLE, run, st);
  }

  // --- What it means ---

  /** At most one transition is past waiting and not ended, so at most one of their requests
      is in flight. */
  lemma OneTransitionAtATime(run: History, st: State)
    requires IsRun(LeadsTo, IDLE, run, st)
    ensures forall i, j :: 0 <= i < |st.tasks| && 0 <= j < |st.tasks| && Active(st.tasks[i].stage) && Active(st.tasks[j].stage) ==> i == j
  {
    RunKeepsInv(run, st);
  }

  /** The server has the client in at most one room, and between requests in exactly the
      room the client believes it is in. */
  lemma JoinedRoomIsTheServers(run: History, st: State)
    requires IsRun(LeadsTo, IDLE, run, st)
    ensures forall r, q :: r in st.server && q in st.server ==> r == q
    ensures (forall i :: 0 <= i < |st.tasks| ==> !InFlight(st.tasks[i].stage)) ==> st.server == JoinedSet(st)
  {
    RunKeepsInv(run, st);
    assert forall i :: 0 <= i < |st.tasks| ==> StageOk(st, st.tasks[i]);
  }

  /** Only the selected room's messages and members are on screen, whatever replies,
      refreshes and pushes arrive when. */
  lemma ShownBelongsToSelected(run: History, st: State)
    requires IsRun(LeadsTo, IDLE, run, st)
    ensures Shown(st.messages, st.selected) && (st.members.Some? ==> st.members == st.selected)
  {
    RunKeepsInv(run, st);
  }

  /** As long as the last transition has not ended, and no longer, the client shows as loading. */
  lemma LoadingIff(run: History, st: State)
    requires IsRun(LeadsTo, IDLE, run, st)
    ensures st.loading <==> st.tasks != [] && !st.tasks[|st.tasks| - 1].stage.Ended?
  {
    RunKeepsInv(run, st);
  }

  /** A message pushed for the selected room is on screen afterwards, unless 200 newer ones are. */
  lemma ReceivedIsShown(st: State, m: Message)
    requires Inv(st) && st.selected == Some(m.room)
    ensures var after := Receive(st, m).messages;
      HasId(after, m.id) || (|after| == SHOWN_CAP && forall x :: x in after ==> m.num <= x.num)
  {
    AppendExact(st.messages, m, m.room);
    if !HasId(st.messages, m.id) {
      var all := InsertedShown(st.messages, m, m.room);
      assert m in all;
      if m in Append(st.messages, m) { assert HasId(Append(st.messages, m), m.id); }
    }
  }

  /** When the history of the selected room arrives, it and everything live is on screen; when
      its member list arrives, that is. Replies to other transitions change nothing on screen. */
  lemma RepliesAreShown(run: History, st: State, i: nat, history: seq<Message>)
    requires IsRun(LeadsTo, IDLE, run, st) && Legal(st, ReplyOk(i, history))
    ensures var stage, after := st.tasks[i].stage, Succeed(st, i, history);
      && (i == |st.tasks| - 1 && stage == LoadingHistory ==>
            forall id :: HasId(after.messages, id) <==> HasId(history, id) || HasId(st.messages, id))
      && (i == |st.tasks| - 1 && stage == LoadingMembers ==> after.members == st.selected && !after.loading)
      && (i < |st.tasks| - 1 || (stage != LoadingHistory && stage != LoadingMembers) ==>
            after.messages == st.messages && after.members == st.members)
  {
    RunKeepsInv(run, st);
    if i == |st.tasks| - 1 { MergingExact(history, st.messages, st.tasks[i].room); }
  }

  /** A transition that was overtaken before it began ends at once and asks the server for nothing. */
  lemma OvertakenAsksNothing(run: History, st: State, i: nat)
    requires IsRun(LeadsTo, IDLE, run, st) && Legal(st, Resume(i)) && i < |st.tasks| - 1
    ensures Begin(st, i).tasks[i].stage == Ended(Stale) && Begin(st, i) == st.(tasks := Begin(st, i).tasks)
  {
    RunKeepsInv(run, st);
  }

  predicate MovesTransition(e: Event) {
    e.Resume? || e.ServerApplies? || e.ReplyOk? || e.ReplyError?
  }

  /** Nothing gets stuck: while a transition has not ended, some transition can take a step. */
  lemma NeverStuck(run: History, st: State, i: nat)
    requires IsRun(LeadsTo, IDLE, run, st)
    requires i < |st.tasks| && !st.tasks[i].stage.Ended?
    ensures exists e :: Legal(st, e) && MovesTransition(e)
    decreases i
  {
    if i > 0 && !st.tasks[i - 1].stage.Ended? {
      NeverStuck(run, st, i - 1);
    } else {
      var stage := st.tasks[i].stage;
      var e := if stage == Waiting then Resume(i)
               else if stage == Leaving(false) || stage == Joining(false) then ServerApplies(i) else ReplyOk(i, []);
      assert Legal(st, e);
    }
  }

  /** Steps a transition can still take. */
  function Left(stage: Stage): nat {
    match stage
    case Waiting => 7
    case Leaving(applied) => if applied then 5 else 6
    case Joining(applied) => if applied then 3 else 4
    case LoadingHistory => 2
    case LoadingMembers => 1
    case Ended(_) => 0
  }

  function Work(tasks: seq<Transition>): nat {
    if tasks == [] then 0 else Left(tasks[0].stage) + Work(tasks[1..])
  }

  lemma {:induction false} WorkShrinks(before: seq<Transition>, after: seq<Transition>, i: nat)
    requires i < |before| == |after| && Left(after[i].stage) < Left(before[i].stage)
    requires forall j :: 0 <= j < |before| && j != i ==> after[j] == before[j]
    ensures Work(after) < Work(before)
  {
    if i == 0 { assert after[1..] == before[1..]; } else { WorkShrinks(before[1..], after[1..], i - 1); }
  }

  predicate WithoutSelecting(st: State, e: Event, next: State) {
    LeadsTo(st, e, next) && !e.SelectRoom?
  }

  lemma StepSpends(st: State, e: Event)
    requires Legal(st, e) && !e.SelectRoom?
    ensures (if MovesTransition(e) then 1 else 0) + Work(Step(st, e).tasks) <= Work(st.tasks)
  {
    match e
    case Resume(i) => WorkShrinks(st.tasks, Step(st, e).tasks, i);
    case ServerApplies(i) => WorkShrinks(st.tasks, Step(st, e).tasks, i);
    case ReplyOk(i, _) => WorkShrinks(st.tasks, Step(st, e).tasks, i);
    case ReplyError(i) => WorkShrinks(st.tasks, Step(st, e).tasks, i);
    case _ =>
  }

  /** ... and without further selections the transitions take a bounded number of steps, so
      all of them end. */
  lemma TransitionsEnd(start: State, run: History, last: State)
    requires IsRun(WithoutSelecting, start, run, last)
    ensures Count(MovesTransition, run) + Work(last.tasks) <= Work(start.tasks)
  {
    var left := (st: State) => Work(st.tasks);
    forall st, e, next | WithoutSelecting(st, e, next) ensures (if MovesTransition(e) then 1 else 0) + left(next) <= left(st) {
      StepSpends(st, e);
    }
    RunSpends(WithoutSelecting, (st: State) => true, MovesTransition, left, start, run, last);
  }

  /** Once the last transition has ended, the client is joined to the selected room exactly
      when neither its leave nor its join failed, and it no longer shows as loading. */
  lemma SettledIff(run: History, st: State)
    requires IsRun(LeadsTo, IDLE, run, st) && st.tasks != []
    requires st.tasks[|st.tasks| - 1].stage.Ended?
    ensures var how := st.tasks[|st.tasks| - 1].stage.how;
      && how != Stale && !st.loading
      && (st.joined == st.selected && st.server == JoinedSet(st) <==> how != Failed(Leave) && how != Failed(Join))
  {
    RunKeepsInv(run, st);
    var last := |st.tasks| - 1;
    forall i | 0 <= i < |st.tasks| ensures !Active(st.tasks[i].stage) {
      if i < last { assert st.tasks[last].stage != Waiting; }
    }
  }
}
