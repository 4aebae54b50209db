/** Re-enabling a subscription while the worker holds one of its rows reorders deliveries. */
module WebhookRace {
  import opened Wrappers
  import opened MessageStore
  import opened Runs
  import opened Webhooks
  import opened WebhookRuns
  import opened WebhookGuards

  /** Pending rows stay past their cursors after a 2xx exactly when nothing pending was
      ahead of the delivered row. */
  lemma AcceptedKeepsOrderIff(st: State, k: Key, now: int)
    requires QueueOk(st) && k in st.inflight && k in st.queue
    requires st.subs[k.sub].status == Active && HasId(st.log.rows, st.inflight[k].messageId)
    ensures QueueOk(Process(st, k, Accepted2xx, now)) <==> Head(st.queue, k)
  {
    var after := Process(st, k, Accepted2xx, now);
    assert after.subs[k.sub].lastDelivered == k.num;
    if j :| j in st.queue && j.sub == k.sub && j.num < k.num {
      assert j in after.queue && !(after.subs[j.sub].lastDelivered < j.num);
    }
  }

  const ROOM := "r"
  const SUB := "s"
  const OWNER := "o"
  const ALL := Filters([], None, None, false)
  const FIRST := Message("a", ROOM, 1, "x", "x", None, None)
  const SECOND := Message("b", ROOM, 2, "x", "x", None, None)
  const K1 := Key(SUB, 1)
  const K2 := Key(SUB, 2)
  const ROWS := [FIRST, SECOND]

  /** Both messages stored, one subscription. */
  function Scene(cursor: int, status: Status, failures: nat, queue: Queue, inflight: Queue, acked: seq<int>): State {
    State(Log({ROOM}, ROWS, map[ROOM := 2]),
          map[SUB := Subscription(ROOM, OWNER, ALL, 0, cursor, status, failures)],
          queue, inflight, 0, {}, map[SUB := acked])
  }

  /** Some run of a server that started with an empty store leads here. */
  ghost predicate Reached(st: State) {
    exists run :: IsRun(LeadsTo, Fresh({ROOM}, 0), run, st)
  }

  lemma Begins()
    ensures Reached(Fresh({ROOM}, 0))
  {
    assert IsRun(LeadsTo, Fresh({ROOM}, 0), [], Fresh({ROOM}, 0));
  }

  lemma Then(st: State, e: Event, next: State)
    requires Reached(st) && Legal(st, e, 0) && next == Next(st, e, 0)
    ensures Reached(next)
  {
    var run :| IsRun(LeadsTo, Fresh({ROOM}, 0), run, st);
    RunExtend(LeadsTo, Fresh({ROOM}, 0), run, st, Timed(e, 0), next);
    assert IsRun(LeadsTo, Fresh({ROOM}, 0), run + [Moment(st, Timed(e, 0))], next);
  }

  lemma Loading(st: State, k: Key, row: Delivery)
    requires st.inflight == map[] && st.clock == 0 && k in st.queue && st.queue[k] == row && row.dueAt == 0
    requires forall j :: j in st.queue ==> j.sub == k.sub && k.num <= j.num
    ensures Legal(st, Loaded([k]), 0)
    ensures Next(st, Loaded([k]), 0) == st.(inflight := map[k := row])
  {
    forall j | Due(st.queue, j, 0) ensures j == k {}
  }

  const ROW1 := NewRow("a", 0)
  const ROW2 := NewRow("b", 0)
  const BOTH: Queue := map[K1 := ROW1, K2 := ROW2]

  /** Backfilling both messages leaves both rows queued. */
  lemma QueuesBoth(queue: Queue, sub: Subscription)
    requires queue == map[] || queue == map[K2 := ROW2]
    requires sub.lastDelivered == 0 && sub.filters == ALL
    ensures EnqueueRows(queue, SUB, sub, Past(ROWS, ROOM, 0), 0) == BOTH
  {
    PastAll(ROWS, ROOM, 0);
    assert ROWS[1..] == [SECOND] && [SECOND][1..] == [];
    assert MatchesFilter(sub, FIRST) && MatchesFilter(sub, SECOND);
    var q1 := Enqueue(queue, K1, "a", 0);
    var q2 := Enqueue(q1, K2, "b", 0);
    assert EnqueueRows(queue, SUB, sub, ROWS, 0) == EnqueueRows(q1, SUB, sub, [SECOND], 0);
    assert EnqueueRows(q1, SUB, sub, [SECOND], 0) == EnqueueRows(q2, SUB, sub, [], 0);
    assert q2 == BOTH;
  }

  /** The queue after the URL was blocked once and message 1 was dropped: message 2 is loaded. */
  function SecondLoaded(): State {
    Scene(0, Failed, 1, map[K2 := ROW2], map[K2 := ROW2], [])
  }

  lemma Enabling()
    ensures Legal(SecondLoaded(), Enabled(SUB, OWNER), 0)
    ensures Next(SecondLoaded(), Enabled(SUB, OWNER), 0) == Scene(0, Active, 0, BOTH, map[K2 := ROW2], [])
  {
    QueuesBoth(map[K2 := ROW2], SecondLoaded().subs[SUB]);
    PastAll(ROWS, ROOM, 0);
  }

  /** An accepted delivery of message `k.num` in an active scene. */
  lemma Accepting(cursor: int, queue: Queue, k: Key, row: Delivery, acked: seq<int>)
    requires (k == K1 && row == ROW1) || (k == K2 && row == ROW2)
    requires k in queue
    ensures var st := Scene(cursor, Active, 0, queue, map[k := row], acked);
      && Legal(st, Processed(k, Accepted2xx), 0)
      && Next(st, Processed(k, Accepted2xx), 0)
         == Scene(if cursor < k.num then k.num else cursor, Active, 0, queue - {k}, map[], acked + [k.num])
  {
    assert FIRST in ROWS && SECOND in ROWS;
    var st := Scene(cursor, Active, 0, queue, map[k := row], acked);
    assert HasId(st.log.rows, row.messageId);
    assert map[k := row] - {k} == map[];
  }

  lemma SecondAccepted()
    requires Reached(SecondLoaded())
    ensures Reached(Scene(2, Active, 0, map[K1 := ROW1], map[], [2]))
  {
    var enabled := Scene(0, Active, 0, BOTH, map[K2 := ROW2], []);
    Enabling();
    Then(SecondLoaded(), Enabled(SUB, OWNER), enabled);
    Accepting(0, BOTH, K2, ROW2, []);
    assert BOTH - {K2} == map[K1 := ROW1] && [] + [2] == [2];
    Then(enabled, Processed(K2, Accepted2xx), Scene(2, Active, 0, map[K1 := ROW1], map[], [2]));
  }

  lemma ThenFirstAccepted()
    requires Reached(Scene(2, Active, 0, map[K1 := ROW1], map[], [2]))
    ensures Reached(Scene(2, Active, 0, map[], map[], [2, 1]))
  {
    var waiting := Scene(2, Active, 0, map[K1 := ROW1], map[], [2]);
    var loaded := Scene(2, Active, 0, map[K1 := ROW1], map[K1 := ROW1], [2]);
    Loading(waiting, K1, ROW1);
    Then(waiting, Loaded([K1]), loaded);
    Accepting(2, map[K1 := ROW1], K1, ROW1, [2]);
    assert [2] + [1] == [2, 1] && map[K1 := ROW1] - {K1} == map[];
    Then(loaded, Processed(K1, Accepted2xx), Scene(2, Active, 0, map[], map[], [2, 1]));
  }

  lemma Sending(rows: seq<Message>, tips: map<RoomId, int>, m: Message)
    requires (rows == [] && tips == map[] && m == FIRST) || (rows == [FIRST] && tips == map[ROOM := 1] && m == SECOND)
    ensures var st := State(Log({ROOM}, rows, tips), map[], map[], map[], 0, {}, map[]);
      && Legal(st, Send(m), 0)
      && Next(st, Send(m), 0) == State(Log({ROOM}, rows + [m], map[ROOM := m.num]), map[], map[], map[], 0, {}, map[])
  {
    var st := State(Log({ROOM}, rows, tips), map[], map[], map[], 0, {}, map[]);
    assert Numbered(st.log, m) == m;
    assert FIRST.id[0] != SECOND.id[0];
    assert tips[ROOM := m.num] == map[ROOM := m.num];
    assert RawInsert(st.log, m) == Ok(Log({ROOM}, rows + [m], map[ROOM := m.num]));
    assert FanOutKeys(st.(log := RawInsert(st.log, m).value), m) == {};
  }

  lemma Subscribing()
    ensures var st := State(Log({ROOM}, ROWS, map[ROOM := 2]), map[], map[], map[], 0, {}, map[]);
      && Legal(st, Subscribed(SUB, ROOM, OWNER, ALL, Some(0)), 0)
      && Next(st, Subscribed(SUB, ROOM, OWNER, ALL, Some(0)), 0) == Scene(0, Active, 0, BOTH, map[], [])
  {
    QueuesBoth(map[], Subscription(ROOM, OWNER, ALL, 0, 0, Active, 0));
  }

  /** A blocked URL: an active subscription fails and keeps the row, a failed one drops it. */
  lemma Blocking(status: Status)
    ensures var st := Scene(0, status, if status == Active then 0 else 1, BOTH, map[K1 := ROW1], []);
      && Legal(st, Processed(K1, Blocked), 0)
      && Next(st, Processed(K1, Blocked), 0)
         == Scene(0, Failed, 1, if status == Active then BOTH else map[K2 := ROW2], map[], [])
  {
    assert FIRST in ROWS;
    assert HasId(ROWS, ROW1.messageId);
    assert map[K1 := ROW1] - {K1} == map[];
    assert BOTH - {K1} == map[K2 := ROW2];
  }

  lemma ReachSubscribed()
    ensures Reached(Scene(0, Active, 0, BOTH, map[], []))
  {
    var f1 := State(Log({ROOM}, [FIRST], map[ROOM := 1]), map[], map[], map[], 0, {}, map[]);
    var f2 := State(Log({ROOM}, ROWS, map[ROOM := 2]), map[], map[], map[], 0, {}, map[]);
    assert [] + [FIRST] == [FIRST] && [FIRST] + [SECOND] == ROWS;
    Begins();
    Sending([], map[], FIRST);                 Then(Fresh({ROOM}, 0), Send(FIRST), f1);
    Sending([FIRST], map[ROOM := 1], SECOND);  Then(f1, Send(SECOND), f2);
    Subscribing();
    Then(f2, Subscribed(SUB, ROOM, OWNER, ALL, Some(0)), Scene(0, Active, 0, BOTH, map[], []));
  }

  lemma ReachSecondLoaded()
    ensures Reached(SecondLoaded())
  {
    var s0 := Scene(0, Active, 0, BOTH, map[], []);
    var s1 := Scene(0, Active, 0, BOTH, map[K1 := ROW1], []);
    var s2 := Scene(0, Failed, 1, BOTH, map[], []);
    var s3 := Scene(0, Failed, 1, BOTH, map[K1 := ROW1], []);
    var s4 := Scene(0, Failed, 1, map[K2 := ROW2], map[], []);
    ReachSubscribed();
    Loading(s0, K1, ROW1);  Then(s0, Loaded([K1]), s1);
    Blocking(Active);       Then(s1, Processed(K1, Blocked), s2);
    Loading(s2, K1, ROW1);  Then(s2, Loaded([K1]), s3);
    Blocking(Failed);       Then(s3, Processed(K1, Blocked), s4);
    Loading(s4, K2, ROW2);  Then(s4, Loaded([K2]), SecondLoaded());
  }

  /** A run the server can take from an empty store: two messages, a subscription from 0,
      one blocked delivery, then re-enabling while message 2 is loaded. Its receiver
      accepts message 2 before message 1. */
  lemma EnableRaceReorders()
    ensures exists run, last :: IsRun(LeadsTo, Fresh({ROOM}, 0), run, last) && last.acked == map[SUB := [2, 1]]
    ensures !Increasing([2, 1])
  {
    ReachSecondLoaded();
    SecondAccepted();
    ThenFirstAccepted();
    assert [2, 1][0] > [2, 1][1];
  }

  // --- The overtaken row is lost ---

  /** The row behind the cursor is blocked: an active subscription fails and keeps it, a
      failed one drops it. */
  lemma BlockingBehind(status: Status, failures: nat)
    requires failures == if status == Active then 0 else 1
    ensures var st := Scene(2, status, failures, map[K1 := ROW1], map[K1 := ROW1], [2]);
      && Legal(st, Processed(K1, Blocked), 0)
      && Next(st, Processed(K1, Blocked), 0) == Scene(2, Failed, 1, if status == Active then map[K1 := ROW1] else map[], map[], [2])
  {
    assert FIRST in ROWS && HasId(ROWS, ROW1.messageId);
    assert map[K1 := ROW1] - {K1} == map[];
  }

  /** Message 1 waits behind the cursor, is blocked, and is blocked again. */
  lemma DroppedBehindCursor()
    requires Reached(Scene(2, Active, 0, map[K1 := ROW1], map[], [2]))
    ensures Reached(Scene(2, Failed, 1, map[], map[], [2]))
  {
    var one: Queue := map[K1 := ROW1];
    var s0, s1 := Scene(2, Active, 0, one, map[], [2]), Scene(2, Active, 0, one, one, [2]);
    var s2, s3 := Scene(2, Failed, 1, one, map[], [2]), Scene(2, Failed, 1, one, one, [2]);
    Loading(s0, K1, ROW1);      Then(s0, Loaded([K1]), s1);
    BlockingBehind(Active, 0);  Then(s1, Processed(K1, Blocked), s2);
    Loading(s2, K1, ROW1);      Then(s2, Loaded([K1]), s3);
    BlockingBehind(Failed, 1);  Then(s3, Processed(K1, Blocked), Scene(2, Failed, 1, map[], map[], [2]));
  }

  /** Nothing lies past the cursor, so enabling queues nothing. */
  lemma EnablingEmpty()
    ensures var st := Scene(2, Failed, 1, map[], map[], [2]);
      && Legal(st, Enabled(SUB, OWNER), 0) && Past(ROWS, ROOM, 2) == [] == EnablePage(st, SUB)
      && Next(st, Enabled(SUB, OWNER), 0) == Scene(2, Active, 0, map[], map[], [2])
  {
    PastNone(ROWS, ROOM, 2);
  }

  /** A run from an empty store with two messages, none of them past the cursor at the last
      enable, which queues nothing ahead of a loaded row. Message 1 is owed to the active
      subscription afterwards, and neither queued nor accepted. */
  lemma RaceLoses()
    ensures var before := Scene(2, Failed, 1, map[], map[], [2]);
      && Calm(before, Enabled(SUB, OWNER)) && !ReachesAll(before, Timed(Enabled(SUB, OWNER), 0))
    ensures exists run, last :: IsRun(LeadsTo, Fresh({ROOM}, 0), run, last) && last.log.rows == ROWS && Lost(last, SUB, FIRST)
  {
    var before, last := Scene(2, Failed, 1, map[], map[], [2]), Scene(2, Active, 0, map[], map[], [2]);
    ReachSecondLoaded();
    SecondAccepted();
    DroppedBehindCursor();
    EnablingEmpty();
    Then(before, Enabled(SUB, OWNER), last);
    assert Owed(before, SUB, FIRST) && !HandedOn(before, SUB, FIRST);
    assert last.log.rows == ROWS && Lost(last, SUB, FIRST);
  }

  // --- Overtaken, and yet in order ---

  lemma RefusingSecond()
    ensures var st := Scene(0, Active, 0, BOTH, map[K2 := ROW2], []);
      && Legal(st, Processed(K2, Rejected), 0)
      && Next(st, Processed(K2, Rejected), 0) == Scene(0, Active, 0, map[K1 := ROW1, K2 := Retry(ROW2, 0, 0)], map[], [])
  {
    assert SECOND in ROWS && HasId(ROWS, ROW2.messageId);
    assert map[K2 := ROW2] - {K2} == map[];
  }

  /** Enabling queues message 1 ahead of the loaded message 2; message 2 is refused, and message
      1 is accepted first. */
  lemma OvertakenInOrder()
    ensures Reached(SecondLoaded()) && Overtakes(SecondLoaded(), SUB)
    ensures exists queue :: K2 in queue && Reached(Scene(1, Active, 0, queue, map[], [1]))
  {
    var both: Queue := map[K1 := ROW1, K2 := Retry(ROW2, 0, 0)];
    var enabled, refused := Scene(0, Active, 0, BOTH, map[K2 := ROW2], []), Scene(0, Active, 0, both, map[], []);
    ReachSecondLoaded();
    Enabling();
    PastAll(ROWS, ROOM, 0);
    assert FIRST in EnablePage(SecondLoaded(), SUB);
    Then(SecondLoaded(), Enabled(SUB, OWNER), enabled);
    RefusingSecond();
    Then(enabled, Processed(K2, Rejected), refused);
    FirstAcceptedFirst(both);
  }

  lemma FirstAcceptedFirst(queue: Queue)
    requires queue.Keys == {K1, K2} && queue[K1] == ROW1 && Reached(Scene(0, Active, 0, queue, map[], []))
    ensures Reached(Scene(1, Active, 0, queue - {K1}, map[], [1]))
  {
    var loaded := Scene(0, Active, 0, queue, map[K1 := ROW1], []);
    Loading(Scene(0, Active, 0, queue, map[], []), K1, ROW1);
    Then(Scene(0, Active, 0, queue, map[], []), Loaded([K1]), loaded);
    Accepting(0, queue, K1, ROW1, []);
    assert [] + [1] == [1];
    Then(loaded, Processed(K1, Accepted2xx), Scene(1, Active, 0, queue - {K1}, map[], [1]));
  }
}
