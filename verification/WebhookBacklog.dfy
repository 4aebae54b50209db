/** Re-enabling a subscription with more than a page of backlog loses rows. */
module WebhookBacklog {
  import opened Wrappers
  import opened Maps
  import opened MessageStore
  import opened Runs
  import opened Webhooks
  import opened WebhookRuns
  import opened WebhookGuards
  import opened WebhookRace

  function Nth(n: nat): Message {
    Message(seq(n, _ => 'x'), ROOM, n, "x", "x", None, None)
  }

  function FirstRows(n: nat): (rows: seq<Message>)
    ensures |rows| == n && forall i :: 0 <= i < n ==> rows[i] == Nth(i + 1)
  {
    if n == 0 then [] else FirstRows(n - 1) + [Nth(n)]
  }

  function Stored(n: nat): Log {
    Log({ROOM}, FirstRows(n), if n == 0 then map[] else map[ROOM := n])
  }

  const ONE: Queue := map[K1 := NewRow("x", 0)]

  /** `n` messages stored, of which the subscription was given at most the first. */
  function Given(n: nat, status: Status, queue: Queue, inflight: Queue): State {
    State(Stored(n), map[SUB := Subscription(ROOM, OWNER, ALL, 0, 0, status, if status == Active then 0 else 1)],
          queue, inflight, 0, {}, map[SUB := []])
  }

  lemma Storing(n: nat)
    ensures Numbered(Stored(n), Nth(n + 1)) == Nth(n + 1)
    ensures InsertMessage(Stored(n), Nth(n + 1)) == Ok(Stored(n + 1))
  {
    forall m | m in FirstRows(n) ensures |m.id| < |Nth(n + 1).id| {}
    assert Stored(n).tips[ROOM := n + 1] == Stored(n + 1).tips;
  }

  lemma Subscribing()
    ensures Legal(Fresh({ROOM}, 0), Subscribed(SUB, ROOM, OWNER, ALL, None), 0)
    ensures Next(Fresh({ROOM}, 0), Subscribed(SUB, ROOM, OWNER, ALL, None), 0) == Given(0, Active, map[], map[])
  {
    assert EnqueueRows(map[], SUB, Subscription(ROOM, OWNER, ALL, 0, 0, Active, 0), [], 0) == map[];
  }

  /** Only an active subscription is fanned out to. */
  lemma Sending(n: nat, status: Status, queue: Queue)
    requires if status == Active then n == 0 && queue == map[] else queue == ONE
    ensures Legal(Given(n, status, queue, map[]), Send(Nth(n + 1)), 0)
    ensures Next(Given(n, status, queue, map[]), Send(Nth(n + 1)), 0) == Given(n + 1, status, ONE, map[])
  {
    var stored := Given(n + 1, status, queue, map[]);
    Storing(n);
    FanningOut(stored, Nth(n + 1));
    assert Next(Given(n, status, queue, map[]), Send(Nth(n + 1)), 0) == FanOut(stored, Nth(n + 1), 0);
  }

  lemma FanningOut(st: State, m: Message)
    requires st.subs.Keys == {SUB} && m.room == ROOM
    requires if st.subs[SUB].status == Active then m == Nth(1) && st.queue == map[] && Wanted(st, K1, m) else st.queue == ONE
    ensures FanOut(st, m, 0) == st.(queue := ONE)
  {
    FanOutExact(st, m, 0);
    assert Nth(1).id == "x";
    var after := FanOut(st, m, 0).queue;
    assert K1 in after && after[K1] == NewRow("x", 0);
    assert after.Keys == {K1};
  }

  lemma Blocking()
    ensures var st := Given(1, Active, ONE, ONE);
      Legal(st, Processed(K1, Blocked), 0) && Next(st, Processed(K1, Blocked), 0) == Given(1, Failed, ONE, map[])
  {
    assert Nth(1).id == "x" && FirstRows(1)[0] == Nth(1);
    assert HasId(FirstRows(1), "x");
    assert ONE - {K1} == map[];
  }

  lemma NothingQueued()
    ensures Reached(Given(0, Active, map[], map[]))
  {
    Begins();
    Subscribing();
    Then(Fresh({ROOM}, 0), Subscribed(SUB, ROOM, OWNER, ALL, None), Given(0, Active, map[], map[]));
  }

  lemma SentNext(n: nat, status: Status, queue: Queue)
    requires Reached(Given(n, status, queue, map[]))
    requires if status == Active then n == 0 && queue == map[] else queue == ONE
    ensures Reached(Given(n + 1, status, ONE, map[]))
  {
    Sending(n, status, queue);
    Then(Given(n, status, queue, map[]), Send(Nth(n + 1)), Given(n + 1, status, ONE, map[]));
  }

  lemma FirstLoaded()
    ensures Reached(Given(1, Active, ONE, ONE))
  {
    NothingQueued();
    SentNext(0, Active, map[]);
    Loading(Given(1, Active, ONE, map[]), K1, NewRow("x", 0));
    Then(Given(1, Active, ONE, map[]), Loaded([K1]), Given(1, Active, ONE, ONE));
  }

  /** The delivery of the first message is blocked: the subscription fails and the row stays. */
  lemma FirstBlocked()
    ensures Reached(Given(1, Failed, ONE, map[]))
  {
    FirstLoaded();
    Blocking();
    Then(Given(1, Active, ONE, ONE), Processed(K1, Blocked), Given(1, Failed, ONE, map[]));
  }

  /** Nothing is queued for a failed subscription, however many messages follow. */
  lemma {:induction false} Backlog(n: nat)
    requires 1 <= n
    ensures Reached(Given(n, Failed, ONE, map[]))
  {
    if n == 1 {
      FirstBlocked();
    } else {
      Backlog(n - 1);
      SentNext(n - 1, Failed, ONE);
    }
  }

  /** For every backlog of more than a page there is a run from an empty store in which the
      subscription fails, its owner enables it again, and the last message, stored while it
      had failed, is neither queued nor accepted. */
  lemma LongBacklogIsLost(n: nat)
    requires n > HISTORY_PAGE
    ensures exists run, last :: IsRun(LeadsTo, Fresh({ROOM}, 0), run, last) && Loses(last, Nth(n)) && !Covered(last)
  {
    var st := Given(n, Failed, ONE, map[]);
    Backlog(n);
    LastIsLost(n);
    Then(st, Enabled(SUB, OWNER), Enable(st, SUB, OWNER, 0));
    var last := Enable(st, SUB, OWNER, 0);
    assert Loses(last, Nth(n)) && !Covered(last);
  }

  ghost predicate Loses(st: State, m: Message) {
    st.subs.Keys <= st.acked.Keys && Lost(st, SUB, m)
  }

  lemma PageOf(n: nat)
    requires n > HISTORY_PAGE
    ensures EnablePage(Given(n, Failed, ONE, map[]), SUB) == FirstRows(n)[..HISTORY_PAGE]
  {
    PastAll(FirstRows(n), ROOM, 0);
  }

  lemma LastIsNotQueued(n: nat)
    requires n > HISTORY_PAGE
    ensures Key(SUB, n) !in Enable(Given(n, Failed, ONE, map[]), SUB, OWNER, 0).queue
  {
    var sub, page := Subscription(ROOM, OWNER, ALL, 0, 0, Failed, 1), FirstRows(n)[..HISTORY_PAGE];
    PageOf(n);
    EnqueueRowsExact(ONE, SUB, sub, page, 0);
    assert forall m :: m in page ==> m.num < n;
    assert Enable(Given(n, Failed, ONE, map[]), SUB, OWNER, 0).queue == EnqueueRows(ONE, SUB, sub, page, 0);
  }

  lemma LastIsLost(n: nat)
    requires n > HISTORY_PAGE
    ensures Loses(Enable(Given(n, Failed, ONE, map[]), SUB, OWNER, 0), Nth(n))
  {
    LastIsNotQueued(n);
    assert FirstRows(n)[n - 1] == Nth(n);
  }
}
