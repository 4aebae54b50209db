/**
What a subscription's receiver gets, told without the functions that compute it: which
messages, when each is tried again, and who changes the subscription.
*/
module WebhookFilters {
  import opened Wrappers
  import opened Maps
  import opened MessageStore
  import opened Runs
  import opened Webhooks
  import opened WebhookRuns
  import opened WebhookSteady
  import opened WebhookGuards

  // --- Which messages ---

  /** Why a subscription with these filters is not told of a message. */
  predicate Unwanted(f: Filters, m: Message) {
    || m.metaType == Some("system")
    || (m.metaType == Some("thinking") && f.excludeThinking)
    || (f.kinds != [] && forall kind :: kind in f.kinds ==> m.kind != Some(kind))
    || (f.onlyFrom.Some? && f.onlyFrom != Some(m.agentName))
    || f.notFrom == Some(m.agentName)
  }

  lemma WantsUnless(f: Filters, m: Message)
    ensures Wants(f, m) <==> !Unwanted(f, m)
  {
  }

  /** A row stands for a message of the subscription's room that it wants. */
  predicate Suits(sub: Subscription, m: Message) {
    m.room == sub.room && !Unwanted(sub.filters, m)
  }

  lemma NotQueuedYet(st: State, id: SubId)
    requires RowsKnown(st) && id in st.subs
    ensures forall k :: k in st.queue && k.sub == id ==> k.num <= Tip(st.log, st.subs[id].room)
  {
    forall k | k in st.queue && k.sub == id ensures k.num <= Tip(st.log, st.subs[id].room) { assert RowKnown(st, k); }
  }

  /** A message just sent is queued for a subscription if and only if that is active, in the
      room, not past the new number, and wants it. */
  lemma SendQueuesIff(st: State, draft: Message, now: int, id: SubId)
    requires Ledger(st) && InsertMessage(st.log, draft).Ok? && id in st.subs && st.subs[id].room == draft.room
    ensures var sub, after, k := st.subs[id], SendMessage(st, draft, now), Key(id, Tip(st.log, draft.room) + 1);
      && (k in after.queue <==> sub.status == Active && sub.lastDelivered < k.num && !Unwanted(sub.filters, draft))
      && (k in after.queue ==> after.queue[k] == Delivery(draft.id, 0, now, []))
  {
    var m, stored := Numbered(st.log, draft), st.(log := InsertMessage(st.log, draft).value);
    var k := Key(id, m.num);
    FanOutExact(stored, m, now);
    WantsUnless(st.subs[id].filters, m);
    NotQueuedYet(st, id);
    assert Wanted(stored, k, m) <==> st.subs[id].status == Active && MatchesFilter(st.subs[id], m);
  }

  /** A new subscription is active and its owner's. Its queue holds the retained messages it
      wants past its start, which is the room's tip unless told otherwise. */
  lemma SubscribeQueuesIff(st: State, id: SubId, room: RoomId, owner: string, f: Filters, since: Option<int>, now: int, num: int)
    requires Ledger(st) && id !in st.acked
    ensures var after := Subscribe(st, id, room, owner, f, since, now);
      && (Key(id, num) in after.queue <==>
            exists m :: m in st.log.rows && m.room == room && m.num == num && !Unwanted(f, m)
                        && (since.Some? && since.value < num))
      && id in after.subs && after.subs[id].status == Active && after.subs[id].failureCount == 0
      && after.subs[id].owner == owner && after.subs[id].room == room && after.subs[id].filters == f
      && after.subs[id].lastDelivered == (if since.Some? then since.value else Tip(st.log, room))
      && (since.None? ==> forall m :: m in st.log.rows && m.room == room ==> m.num <= after.subs[id].lastDelivered)
  {
    BackfillExact(st, id, room, owner, f, since, now);
    forall m | m in st.log.rows && m.room == room ensures m.num <= Tip(st.log, room) && (Wants(f, m) <==> !Unwanted(f, m)) {
      WantsUnless(f, m);
    }
  }

  /** Enabling queues the messages the subscription wants among the first 1000 past its cursor,
      and keeps what is queued. */
  lemma EnableQueuesIff(st: State, id: SubId, owner: string, now: int, num: int)
    requires id in st.subs && st.subs[id].owner == owner
    ensures var sub, after := st.subs[id], Enable(st, id, owner, now);
      Key(id, num) in after.queue <==>
        || Key(id, num) in st.queue
        || exists m :: m in Take(Past(st.log.rows, sub.room, sub.lastDelivered), 1000) && m.num == num && !Unwanted(sub.filters, m)
  {
    var sub, page := st.subs[id], EnablePage(st, id);
    PastMembers(st.log.rows, sub.room, sub.lastDelivered);
    EnqueueRowsExact(st.queue, id, sub, page, now);
    forall m | m in page ensures MatchesFilter(sub, m) <==> !Unwanted(sub.filters, m) {
      assert m in Past(st.log.rows, sub.room, sub.lastDelivered);
      WantsUnless(sub.filters, m);
    }
  }

  // --- Over whole runs: nothing else is delivered ---

  ghost predicate Given(st: State, id: SubId, num: int) {
    Key(id, num) in st.queue || (id in st.acked && num in st.acked[id])
  }

  /** The message was retained at some point of the run. */
  ghost predicate Appeared(run: History, last: State, m: Message) {
    exists i :: 0 <= i <= |run| && m in StateAt(run, last, i).log.rows
  }

  ghost predicate SuitsIn(st: State, id: SubId, num: int, m: Message)
    requires id in st.subs
  {
    m in st.log.rows && m.num == num && Suits(st.subs[id], m)
  }

  ghost predicate WasGiven(st: State, next: State, id: SubId, num: int)
    requires id in next.subs
  {
    id in st.subs && next.subs[id].room == st.subs[id].room && next.subs[id].filters == st.subs[id].filters && Given(st, id, num)
  }

  lemma SendGivesSuitable(st: State, draft: Message, now: int, id: SubId, num: int)
    requires Ledger(st) && id in SendMessage(st, draft, now).subs && Given(SendMessage(st, draft, now), id, num)
    ensures var next := SendMessage(st, draft, now); WasGiven(st, next, id, num) || exists m :: SuitsIn(next, id, num, m)
  {
    var next := SendMessage(st, draft, now);
    if InsertMessage(st.log, draft).Ok? && !WasGiven(st, next, id, num) {
      var m := Numbered(st.log, draft);
      FanOutExact(st.(log := InsertMessage(st.log, draft).value), m, now);
      WantsUnless(st.subs[id].filters, m);
      assert Wanted(st.(log := next.log), Key(id, num), m);
      assert SuitsIn(next, id, num, m);
    }
  }

  lemma EnqueuedSuits(st: State, next: State, id: SubId, sub: Subscription, rows: seq<Message>, k: Key)
    requires id in next.subs && SameCursor(sub, next.subs[id])
    requires k in next.queue && FromRow(rows, id, sub, k, next.queue[k].messageId)
    requires forall m :: m in rows ==> m in next.log.rows && m.room == sub.room
    ensures exists m :: SuitsIn(next, id, k.num, m)
  {
    var m :| m in rows && m.num == k.num && MatchesFilter(sub, m);
    WantsUnless(sub.filters, m);
    assert MatchesFilter(sub, m);
    assert next.subs[id].filters == sub.filters && next.subs[id].room == sub.room;
    assert SuitsIn(next, id, k.num, m);
  }

  lemma EnableGivesSuitable(st: State, e: SubId, owner: string, now: int, id: SubId, num: int)
    requires id in Enable(st, e, owner, now).subs && Given(Enable(st, e, owner, now), id, num)
    ensures var next := Enable(st, e, owner, now); WasGiven(st, next, id, num) || exists m :: SuitsIn(next, id, num, m)
  {
    var next := Enable(st, e, owner, now);
    if e in st.subs && st.subs[e].owner == owner && !WasGiven(st, next, id, num) {
      EnableEnqueues(st, e, owner, now);
      EnqueuedSuits(st, next, e, st.subs[e], EnablePage(st, e), Key(id, num));
    }
  }

  lemma SubscribeGivesSuitable(st: State, e: SubId, room: RoomId, owner: string, f: Filters, since: Option<int>, now: int, id: SubId, num: int)
    requires Steady(st) && e !in st.acked
    requires id in Subscribe(st, e, room, owner, f, since, now).subs && Given(Subscribe(st, e, room, owner, f, since, now), id, num)
    ensures var next := Subscribe(st, e, room, owner, f, since, now); WasGiven(st, next, id, num) || exists m :: SuitsIn(next, id, num, m)
  {
    var next := Subscribe(st, e, room, owner, f, since, now);
    var sub := NewSubscription(st, room, owner, f, since);
    var rows := Past(st.log.rows, room, sub.sinceSeq);
    if !WasGiven(st, next, id, num) {
      PastMembers(st.log.rows, room, sub.sinceSeq);
      EnqueueRowsExact(st.queue, e, sub, rows, now);
      EnqueuedSuits(st, next, e, sub, rows, Key(id, num));
    }
  }

  lemma ProcessGivesNothing(st: State, k: Key, outcome: Outcome, now: int, id: SubId, num: int)
    requires Steady(st) && k in st.inflight && id in Process(st, k, outcome, now).subs && Given(Process(st, k, outcome, now), id, num)
    ensures WasGiven(st, Process(st, k, outcome, now), id, num)
  {
    var done := Settlement(st, k, outcome, now);
    SettlementMoves(st, k, outcome, now);
    if done.accepted && id == k.sub && num == k.num { assert Key(id, num) == k && k in st.queue; }
  }

  lemma SameGiven(after: State, st: State, t: Timed, id: SubId, num: int)
    requires Legal(st, t.event, t.now) && Next(st, t.event, t.now) == after.(clock := t.now) && id in after.subs
    requires WasGiven(st, after, id, num) || exists m :: SuitsIn(after, id, num, m)
    ensures var next := Next(st, t.event, t.now); WasGiven(st, next, id, num) || exists m :: SuitsIn(next, id, num, m)
  {
    if m :| SuitsIn(after, id, num, m) { assert SuitsIn(Next(st, t.event, t.now), id, num, m); }
  }

  /** A step gives a subscription only what it had or what suits it. */
  lemma StepGivesSuitable(st: State, t: Timed, id: SubId, num: int)
    requires Ledger(st) && Legal(st, t.event, t.now)
    requires id in Next(st, t.event, t.now).subs && Given(Next(st, t.event, t.now), id, num)
    ensures var next := Next(st, t.event, t.now); WasGiven(st, next, id, num) || exists m :: SuitsIn(next, id, num, m)
  {
    match t.event
    case Send(draft) => SendGivesSuitable(st, draft, t.now, id, num); SameGiven(SendMessage(st, draft, t.now), st, t, id, num);
    case Enabled(e, owner) => EnableGivesSuitable(st, e, owner, t.now, id, num); SameGiven(Enable(st, e, owner, t.now), st, t, id, num);
    case Subscribed(e, room, owner, f, since) => SubscribeGivesSuitable(st, e, room, owner, f, since, t.now, id, num); SameGiven(Subscribe(st, e, room, owner, f, since, t.now), st, t, id, num);
    case Processed(k, outcome) => ProcessGivesNothing(st, k, outcome, t.now, id, num);
    case _ => OtherStepsGiveNothing(st, t, id, num);
  }

  lemma OtherStepsGiveNothing(st: State, t: Timed, id: SubId, num: int)
    requires Legal(st, t.event, t.now) && (LogEvent(t.event) || t.event.Unsubscribed? || t.event.Loaded?)
    requires id in Next(st, t.event, t.now).subs && Given(Next(st, t.event, t.now), id, num)
    ensures WasGiven(st, Next(st, t.event, t.now), id, num)
  {
  }

  /** In every run from a fresh store, each number queued for a subscription or accepted by its
      receiver is that of a message of its room, retained at some point, that it wants: no
      system message, none it excludes as thinking, of a kind and from a name it asks for. */
  lemma {:induction false} OnlySuitableGiven(rooms: set<RoomId>, now: int, run: History, last: State, id: SubId, num: int)
    requires IsRun(LeadsTo, Fresh(rooms, now), run, last) && id in last.subs && Given(last, id, num)
    ensures exists m :: Appeared(run, last, m) && m.num == num && Suits(last.subs[id], m)
    decreases |run|
  {
    if run != [] {
      var n := |run| - 1;
      RunPrefix(LeadsTo, Fresh(rooms, now), run, last, n);
      LedgerAt(rooms, now, run[..n], run[n].st);
      StepGivesSuitable(run[n].st, run[n].e, id, num);
      if WasGiven(run[n].st, last, id, num) {
        OnlySuitableGiven(rooms, now, run[..n], run[n].st, id, num);
        StillAppeared(run, last, id, num);
      } else {
        JustAppeared(run, last, id, num);
      }
    }
  }

  lemma StillAppeared(run: History, last: State, id: SubId, num: int)
    requires run != [] && id in last.subs && WasGiven(run[|run| - 1].st, last, id, num)
    requires exists m :: Appeared(run[..|run| - 1], run[|run| - 1].st, m) && m.num == num && Suits(run[|run| - 1].st.subs[id], m)
    ensures exists m :: Appeared(run, last, m) && m.num == num && Suits(last.subs[id], m)
  {
    var n := |run| - 1;
    var m :| Appeared(run[..n], run[n].st, m) && m.num == num && Suits(run[n].st.subs[id], m);
    AppearedBefore(run, last, m);
  }

  lemma JustAppeared(run: History, last: State, id: SubId, num: int)
    requires id in last.subs && exists m :: SuitsIn(last, id, num, m)
    ensures exists m :: Appeared(run, last, m) && m.num == num && Suits(last.subs[id], m)
  {
    var m :| SuitsIn(last, id, num, m);
    assert m in StateAt(run, last, |run|).log.rows;
    assert Appeared(run, last, m);
  }

  lemma AppearedBefore(run: History, last: State, m: Message)
    requires run != [] && Appeared(run[..|run| - 1], run[|run| - 1].st, m)
    ensures Appeared(run, last, m)
  {
    var n := |run| - 1;
    var i :| 0 <= i <= n && m in StateAt(run[..n], run[n].st, i).log.rows;
    assert StateAt(run, last, i) == StateAt(run[..n], run[n].st, i);
  }

  lemma LedgerAt(rooms: set<RoomId>, now: int, run: History, last: State)
    requires IsRun(LeadsTo, Fresh(rooms, now), run, last)
    ensures Ledger(last)
  {
    forall st, t, next | Ledger(st) && LeadsTo(st, t, next) ensures Ledger(next) { StepKeepsLedger(st, t); }
    FreshIsLedger(rooms, now);
    RunInvariant(LeadsTo, Ledger, Fresh(rooms, now), run, last);
  }

  // --- What a delivery comes to ---

  /** The subscription is active and the message still there, so the row is POSTed. */
  predicate IsPosted(st: State, k: Key)
    requires k in st.inflight
  {
    k.sub in st.subs && st.subs[k.sub].status == Active && HasId(st.log.rows, st.inflight[k].messageId)
  }

  /** The URL no longer resolves, or this is the sixth refusal. */
  predicate GivesUp(st: State, k: Key, outcome: Outcome)
    requires k in st.inflight
  {
    IsPosted(st, k) && (outcome == Blocked || (outcome == Rejected && |st.inflight[k].posts| == 5))
  }

  /** A delivery that is not POSTed is dropped. One that is goes when it is accepted or refused
      six times, and the receiver's record grows exactly by an accepted number. */
  lemma DeliveryFate(st: State, k: Key, outcome: Outcome, now: int)
    requires Steady(st) && k in st.inflight
    ensures var after := Process(st, k, outcome, now);
      && (k in after.queue <==> IsPosted(st, k) && (outcome == Blocked || (outcome == Rejected && |st.inflight[k].posts| < 5)))
      && (if IsPosted(st, k) && outcome == Accepted2xx then after.acked == st.acked[k.sub := st.acked[k.sub] + [k.num]]
          else after.acked == st.acked)
      && (forall j :: j != k ==> Find(after.queue, j) == Find(st.queue, j))
  {
    if k.sub !in st.subs { assert k !in st.queue; }
  }

  /** The n-th refusal puts the next attempt off by 1, 4, 16, 64 or 256 seconds. */
  lemma RetryDelays(st: State, k: Key, now: int)
    requires Steady(st) && k in st.inflight && IsPosted(st, k) && |st.inflight[k].posts| < 5
    ensures var after, n := Process(st, k, Rejected, now), |st.inflight[k].posts|;
      && k in after.queue && after.queue[k].posts == st.inflight[k].posts + [now]
      && after.queue[k].dueAt == now + if n == 0 then 1_000 else if n == 1 then 4_000 else if n == 2 then 16_000
                                       else if n == 3 then 64_000 else 256_000
  {
  }

  /** In every run, successive POSTs of one row lie as far apart. */
  lemma PostsAreApart(st: State, k: Key)
    requires Steady(st) && k in st.queue
    ensures var posts := st.queue[k].posts;
      && |posts| <= 5
      && (|posts| > 1 ==> posts[1] - posts[0] >= 1_000) && (|posts| > 2 ==> posts[2] - posts[1] >= 4_000)
      && (|posts| > 3 ==> posts[3] - posts[2] >= 16_000) && (|posts| > 4 ==> posts[4] - posts[3] >= 64_000)
      && (|posts| == 5 ==> st.queue[k].dueAt - posts[4] >= 256_000)
  {
    assert RowOk(st.queue[k]);
  }

  /** A batch leaves out a due row only when it is full, and then none of its rows is due later. */
  lemma BatchIsEarliest(queue: Queue, now: int, batch: seq<Key>, k: Key)
    requires IsDueBatch(queue, now, BATCH_LIMIT, batch) && k in queue && k !in batch && queue[k].dueAt <= now
    requires forall j :: j in queue && j.sub == k.sub ==> k.num <= j.num
    ensures |batch| == 32 && forall j :: j in batch ==> j in queue && queue[j].dueAt <= queue[k].dueAt
  {
    assert Due(queue, k, now);
  }

  /** Loading takes exactly the batch, each row as it is. */
  lemma LoadTakesBatch(st: State, batch: seq<Key>, now: int, k: Key)
    requires Legal(st, Loaded(batch), now)
    ensures Find(Load(st, batch).inflight, k) == if k in batch then Find(st.queue, k) else None
    ensures k in batch ==> k in st.queue
  {
    assert k in batch ==> Due(st.queue, k, now);
  }

  /** A 2xx moves the cursor up to its row and clears the failure count, or leaves both if the
      cursor is there already. */
  lemma AcceptedMovesCursor(st: State, k: Key, now: int)
    requires k in st.inflight && IsPosted(st, k)
    ensures var before, after := st.subs[k.sub], Process(st, k, Accepted2xx, now).subs;
      && k.sub in after
      && after[k.sub].lastDelivered == (if before.lastDelivered < k.num then k.num else before.lastDelivered)
      && after[k.sub].failureCount == (if before.lastDelivered < k.num then 0 else before.failureCount)
  {
  }

  // --- Who changes a subscription ---

  predicate ByOwner(st: State, id: SubId, owner: string) {
    id in st.subs && st.subs[id].owner == owner
  }

  /** A subscription goes only when its owner unsubscribes, and then its rows go with it. */
  lemma RemovedIff(st: State, t: Timed, id: SubId)
    requires Ledger(st) && Legal(st, t.event, t.now) && id in st.subs
    ensures var next := Next(st, t.event, t.now);
      && (id !in next.subs <==> t.event.Unsubscribed? && t.event.id == id && ByOwner(st, id, t.event.owner))
      && (id !in next.subs ==> forall k :: k in next.queue ==> k.sub != id)
  {
    if t.event.Processed? { SettlementMoves(st, t.event.key, t.event.outcome, t.now); }
  }

  /** It fails exactly when a delivery of it is given up, and recovers exactly when its owner
      enables it; its failure count is then six or the blocked attempt's, or nothing. */
  lemma FailedIff(st: State, t: Timed, id: SubId)
    requires Ledger(st) && Legal(st, t.event, t.now) && id in st.subs && id in Next(st, t.event, t.now).subs
    ensures var sub := Next(st, t.event, t.now).subs[id];
      var fails := t.event.Processed? && t.event.key.sub == id && GivesUp(st, t.event.key, t.event.outcome);
      var enabled := t.event.Enabled? && t.event.id == id && ByOwner(st, id, t.event.owner);
      && (sub.status == Failed <==> fails || (st.subs[id].status == Failed && !enabled))
      && (fails ==> sub.failureCount == |st.inflight[t.event.key].posts| + 1)
      && (enabled ==> sub.failureCount == 0)
      && sub.owner == st.subs[id].owner && sub.room == st.subs[id].room && sub.filters == st.subs[id].filters
  {
    match t.event
    case Processed(k, outcome) => ProcessFailsIff(st, k, outcome, t.now, id);
    case _ => OthersFailNothing(st, t, id);
  }

  lemma OthersFailNothing(st: State, t: Timed, id: SubId)
    requires Legal(st, t.event, t.now) && !t.event.Processed? && id in st.subs && id in Next(st, t.event, t.now).subs
    requires id in st.acked
    ensures Next(st, t.event, t.now).subs[id] ==
      if t.event.Enabled? && t.event.id == id && ByOwner(st, id, t.event.owner) then st.subs[id].(status := Active, failureCount := 0)
      else st.subs[id]
  {
  }

  lemma ProcessFailsIff(st: State, k: Key, outcome: Outcome, now: int, id: SubId)
    requires Steady(st) && k in st.inflight && id in st.subs
    ensures var after := Process(st, k, outcome, now);
      && id in after.subs && SameCursor(st.subs[id].(lastDelivered := after.subs[id].lastDelivered), after.subs[id])
      && (after.subs[id].status == Failed <==> (k.sub == id && GivesUp(st, k, outcome)) || st.subs[id].status == Failed)
      && (k.sub == id && GivesUp(st, k, outcome) ==> after.subs[id].failureCount == |st.inflight[k].posts| + 1)
  {
    if k.sub == id { assert RowOk(st.inflight[k]); }
  }
}
