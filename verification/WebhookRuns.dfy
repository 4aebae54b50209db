/** What every run of the webhook queue keeps. */
module WebhookRuns {
  import opened Wrappers
  import opened Maps
  import opened MessageStore
  import opened Runs
  import opened Webhooks

  // --- The invariant ---

  /** Pending rows belong to live subscriptions and lie past their cursors. */
  ghost predicate QueueOk(st: State) {
    forall k :: k in st.queue ==>
      && k.sub in st.subs
      && st.subs[k.sub].lastDelivered < k.num <= Tip(st.log, st.subs[k.sub].room)
  }

  ghost predicate QueueIdsOk(st: State)
    requires QueueOk(st)
  {
    forall k, m :: k in st.queue && m in st.log.rows && m.room == st.subs[k.sub].room && m.num == k.num ==>
      m.id == st.queue[k].messageId
  }

  /** The loaded batch holds at most one row per subscription, unchanged since it was
      loaded, and nothing pending is ahead of it. */
  ghost predicate InflightOk(st: State) {
    && (forall k :: k in st.inflight ==> k.sub in st.acked)
    && (forall j, k :: j in st.inflight && k in st.inflight && j.sub == k.sub ==> j == k)
    && (forall k :: k in st.inflight && k.sub in st.subs ==>
          k in st.queue && st.queue[k] == st.inflight[k] && st.queue[k].dueAt <= st.clock && Head(st.queue, k))
  }

  ghost predicate Increasing(s: seq<int>) {
    forall i, j :: 0 <= i < j < |s| ==> s[i] < s[j]
  }

  /** What one subscription has acknowledged increases and ends at its cursor at most, and
      the cursor is at its start or at a row that was accepted. */
  ghost predicate AckedAt(st: State, id: SubId)
    requires id in st.acked
  {
    && Increasing(st.acked[id])
    && (id in st.subs ==>
          var sub := st.subs[id];
          && (sub.sinceSeq == sub.lastDelivered || sub.sinceSeq < sub.lastDelivered <= Tip(st.log, sub.room))
          && forall n :: n in st.acked[id] ==> sub.sinceSeq < n <= sub.lastDelivered)
  }

  ghost predicate AckedOk(st: State) {
    st.subs.Keys <= st.acked.Keys && forall id :: id in st.acked ==> AckedAt(st, id)
  }

  /** POST times of one delivery respect the retry schedule. */
  ghost predicate Spaced(times: seq<int>) {
    && |times| <= |RETRY_SCHEDULE| + 1
    && forall i :: 0 <= i < |times| - 1 ==> times[i] + 1000 * RETRY_SCHEDULE[i] <= times[i + 1]
  }

  ghost predicate RowOk(d: Delivery) {
    && |d.posts| == d.attempts <= |RETRY_SCHEDULE|
    && Spaced(d.posts)
    && (d.posts != [] ==> d.posts[d.attempts - 1] + 1000 * RETRY_SCHEDULE[d.attempts - 1] <= d.dueAt)
  }

  ghost predicate RowsOk(st: State) {
    forall k :: k in st.queue ==> RowOk(st.queue[k])
  }

  ghost predicate Sound(st: State) {
    LogOk(st.log) && QueueOk(st) && QueueIdsOk(st) && InflightOk(st) && AckedOk(st) && RowsOk(st)
  }

  /** A retained row this subscription asked for and was fanned out to. */
  ghost predicate Owed(st: State, id: SubId, m: Message)
    requires id in st.subs
  {
    && m in st.log.rows && m.room == st.subs[id].room
    && (m.room, m.num) !in st.offBand
    && st.subs[id].sinceSeq < m.num
    && Wants(st.subs[id].filters, m)
  }

  /** Everything owed up to the cursor was answered with 2xx; while the subscription
      is active, everything owed past the cursor is queued. */
  ghost predicate Covered(st: State)
    requires st.subs.Keys <= st.acked.Keys
  {
    forall id, m :: id in st.subs && Owed(st, id, m) ==>
      if m.num <= st.subs[id].lastDelivered then m.num in st.acked[id]
      else st.subs[id].status == Active ==> Key(id, m.num) in st.queue
  }

  function EnablePage(st: State, id: SubId): seq<Message>
    requires id in st.subs
  {
    Take(Past(st.log.rows, st.subs[id].room, st.subs[id].lastDelivered), HISTORY_PAGE)
  }

  /** Every owed row that enabling's single page of history does not reach is queued already. */
  ghost predicate BeyondPageQueued(st: State, id: SubId)
    requires id in st.subs
  {
    forall m :: Owed(st, id, m) && st.subs[id].lastDelivered < m.num && m !in EnablePage(st, id) ==>
      Key(id, m.num) in st.queue
  }

  /** Enabling would queue a row ahead of one the worker has already loaded. */
  ghost predicate Overtakes(st: State, id: SubId)
    requires id in st.subs
  {
    exists k, m :: k in st.inflight && k.sub == id && m in EnablePage(st, id) && MatchesFilter(st.subs[id], m)
      && m.num < k.num && Key(id, m.num) !in st.queue
  }

  /** The two ways in which re-enabling a subscription can lose or reorder rows do not occur. */
  ghost predicate Calm(st: State, e: Event) {
    e.Enabled? && e.id in st.subs && st.subs[e.id].owner == e.owner ==>
      !Overtakes(st, e.id) && BeyondPageQueued(st, e.id)
  }

  // --- The enqueue loop ---

  ghost predicate FromRow(rows: seq<Message>, id: SubId, sub: Subscription, k: Key, messageId: string) {
    k.sub == id && exists m :: m in rows && m.num == k.num && m.id == messageId && MatchesFilter(sub, m)
  }

  ghost predicate Extends(queue: Queue, after: Queue) {
    forall k :: k in queue ==> k in after && after[k] == queue[k]
  }

  /** Backfill and re-enable add exactly the matching rows, each once and never yet
      attempted, and leave every row already queued as it was. */
  lemma {:induction false} EnqueueRowsExact(queue: Queue, id: SubId, sub: Subscription, rows: seq<Message>, now: int)
    ensures var after := EnqueueRows(queue, id, sub, rows, now);
      && Extends(queue, after)
      && (forall k :: k in after && k !in queue ==>
            after[k] == NewRow(after[k].messageId, now) && FromRow(rows, id, sub, k, after[k].messageId))
      && (forall m :: m in rows && MatchesFilter(sub, m) ==> Key(id, m.num) in after)
    decreases rows
  {
    if rows != [] {
      var m := rows[0];
      var next := if MatchesFilter(sub, m) then Enqueue(queue, Key(id, m.num), m.id, now) else queue;
      var after := EnqueueRows(next, id, sub, rows[1..], now);
      EnqueueRowsExact(next, id, sub, rows[1..], now);
      assert rows == [m] + rows[1..];
      forall k | k in after && k !in queue
        ensures after[k] == NewRow(after[k].messageId, now) && FromRow(rows, id, sub, k, after[k].messageId)
      {
        if k in next {
          assert m in rows && after[k] == next[k];
        } else {
          var x :| x in rows[1..] && x.num == k.num && x.id == after[k].messageId && MatchesFilter(sub, x);
          assert x in rows;
        }
      }
    }
  }

  lemma {:induction false} EnqueueRowsConcat(
    queue: Queue, id: SubId, sub: Subscription, a: seq<Message>, b: seq<Message>, now: int)
    ensures EnqueueRows(queue, id, sub, a + b, now) == EnqueueRows(EnqueueRows(queue, id, sub, a, now), id, sub, b, now)
    decreases a
  {
    if a == [] {
      assert a + b == b;
    } else {
      assert (a + b)[1..] == a[1..] + b;
      var next := if MatchesFilter(sub, a[0]) then Enqueue(queue, Key(id, a[0].num), a[0].id, now) else queue;
      EnqueueRowsConcat(next, id, sub, a[1..], b, now);
    }
  }

  // --- Steps ---

  /** What sending, subscribing and enabling have in common: the queue only gains rows
      that were never attempted, past their cursors and behind every loaded row. */
  ghost predicate Grows(st: State, after: State, now: int) {
    && after.inflight == st.inflight && st.clock <= now == after.clock
    && Extends(st.queue, after.queue)
    && (forall k :: k in after.queue && k !in st.queue ==>
          && k.sub in after.subs && after.subs[k.sub].lastDelivered < k.num <= Tip(after.log, after.subs[k.sub].room)
          && after.queue[k] == NewRow(after.queue[k].messageId, now) && IsRowOf(after, k)
          && forall j :: j in st.inflight && j.sub == k.sub ==> j.num <= k.num)
    && st.acked.Keys <= after.acked.Keys
    && (forall id :: id in st.subs ==> id in after.subs && SameCursor(st.subs[id], after.subs[id]))
    && (forall id :: id in after.subs && id !in st.subs ==> id !in st.acked)
    && (forall r :: Tip(st.log, r) <= Tip(after.log, r))
    && (forall m :: m in after.log.rows ==> m in st.log.rows || Tip(st.log, m.room) < m.num)
  }

  ghost predicate IsRowOf(st: State, k: Key)
    requires k in st.queue && k.sub in st.subs
  {
    exists m :: m in st.log.rows && m.room == st.subs[k.sub].room && m.num == k.num && m.id == st.queue[k].messageId
  }

  ghost predicate SameCursor(a: Subscription, b: Subscription) {
    b == a.(status := b.status, failureCount := b.failureCount)
  }

  lemma GrowsKeepsQueue(st: State, after: State, now: int)
    requires Sound(st) && Grows(st, after, now)
    ensures QueueOk(after) && RowsOk(after)
  {
    forall k | k in after.queue
      ensures k.sub in after.subs && after.subs[k.sub].lastDelivered < k.num <= Tip(after.log, after.subs[k.sub].room)
      ensures RowOk(after.queue[k])
    {
      if k in st.queue { assert RowOk(st.queue[k]); }
    }
  }

  lemma GrowsKeepsInflight(st: State, after: State, now: int)
    requires Sound(st) && Grows(st, after, now)
    ensures InflightOk(after)
  {
    forall k | k in after.inflight && k.sub in after.subs ensures k.sub in st.subs && Head(after.queue, k) {
    }
  }

  lemma GrowsKeepsIds(st: State, after: State, now: int)
    requires Sound(st) && Grows(st, after, now)
    requires LogOk(after.log) && QueueOk(after)
    ensures QueueIdsOk(after)
  {
    forall k, m | k in after.queue && m in after.log.rows && m.room == after.subs[k.sub].room && m.num == k.num
      ensures m.id == after.queue[k].messageId
    {
      if k !in st.queue {
        var x :| x in after.log.rows && x.room == after.subs[k.sub].room && x.num == k.num && x.id == after.queue[k].messageId;
        SameRow(after.log.rows, x, m);
      }
    }
  }

  lemma GrowsKeepsSound(st: State, after: State, now: int)
    requires Sound(st) && Grows(st, after, now)
    requires LogOk(after.log) && AckedOk(after)
    ensures Sound(after)
  {
    GrowsKeepsQueue(st, after, now);
    GrowsKeepsInflight(st, after, now);
    GrowsKeepsIds(st, after, now);
  }

  /** Fan-out queues the row for exactly the active subscriptions whose filter it
      matches, and touches nothing else. */
  ghost predicate FannedOut(st: State, after: State, m: Message, now: int) {
    && after == st.(queue := after.queue)
    && Extends(st.queue, after.queue)
    && (forall k :: k in after.queue && k !in st.queue ==> Wanted(st, k, m) && after.queue[k] == NewRow(m.id, now))
    && (forall id :: Wanted(st, Key(id, m.num), m) ==> Key(id, m.num) in after.queue)
  }

  predicate Wanted(st: State, k: Key, m: Message) {
    && k.num == m.num && k.sub in st.subs && st.subs[k.sub].status == Active
    && st.subs[k.sub].room == m.room && MatchesFilter(st.subs[k.sub], m)
  }

  lemma AddRowsExact(queue: Queue, keys: set<Key>, messageId: string, now: int)
    ensures var after := AddRows(queue, keys, messageId, now);
      && Extends(queue, after) && keys <= after.Keys
      && forall k :: k in after && k !in queue ==> k in keys && after[k] == NewRow(messageId, now)
  {
    TabulateExact(keys, k => NewRow(messageId, now));
  }

  /** ... and no other queue is what it leaves. */
  lemma AddRowsUnique(queue: Queue, keys: set<Key>, messageId: string, now: int, after: Queue)
    requires Extends(queue, after) && keys <= after.Keys
    requires forall k :: k in after && k !in queue ==> k in keys && after[k] == NewRow(messageId, now)
    ensures after == AddRows(queue, keys, messageId, now)
  {
    AddRowsExact(queue, keys, messageId, now);
  }

  lemma FanOutKeysExact(st: State, m: Message)
    ensures forall k :: k in FanOutKeys(st, m) <==> Wanted(st, k, m)
  {
    forall k | Wanted(st, k, m) ensures k in FanOutKeys(st, m) {
      assert k == Key(k.sub, m.num);
    }
  }

  lemma FanOutExact(st: State, m: Message, now: int)
    ensures FannedOut(st, FanOut(st, m, now), m, now)
  {
    AddRowsExact(st.queue, FanOutKeys(st, m), m.id, now);
    forall id | Wanted(st, Key(id, m.num), m) ensures Key(id, m.num) in FanOut(st, m, now).queue {
      assert Key(id, m.num) in FanOutKeys(st, m);
    }
  }

  lemma FannedOutGrows(st: State, after: State, m: Message, now: int)
    requires Sound(st) && st.clock <= now
    requires RawInsert(st.log, m).Ok?
    requires FannedOut(st.(log := RawInsert(st.log, m).value), after.(clock := st.clock), m, now)
    requires after.clock == now
    ensures Grows(st, after, now)
  {
    RawInsertKeepsLog(st.log, m);
    FannedOutRows(st, after, m, now);
  }

  lemma FannedOutRows(st: State, after: State, m: Message, now: int)
    requires Sound(st) && RawInsert(st.log, m).Ok?
    requires Tip(st.log, m.room) < m.num == Tip(RawInsert(st.log, m).value, m.room)
    requires FannedOut(st.(log := RawInsert(st.log, m).value), after.(clock := st.clock), m, now)
    ensures forall k :: k in after.queue && k !in st.queue ==>
      && k.sub in after.subs && after.subs[k.sub].lastDelivered < k.num <= Tip(after.log, after.subs[k.sub].room)
      && after.queue[k] == NewRow(after.queue[k].messageId, now) && IsRowOf(after, k)
      && forall j :: j in st.inflight && j.sub == k.sub ==> j.num <= k.num
  {
    assert m in after.log.rows;
  }

  lemma FannedOutKeepsAcked(st: State, after: State, m: Message, now: int)
    requires Sound(st) && RawInsert(st.log, m).Ok?
    requires FannedOut(st.(log := RawInsert(st.log, m).value), after.(clock := st.clock), m, now)
    ensures LogOk(after.log) && AckedOk(after)
  {
    RawInsertKeepsLog(st.log, m);
    forall id | id in after.acked ensures AckedAt(after, id) { assert AckedAt(st, id); }
  }

  lemma SendKeepsSound(st: State, draft: Message, now: int)
    requires Sound(st) && st.clock <= now
    ensures Sound(SendMessage(st, draft, now).(clock := now))
  {
    if InsertMessage(st.log, draft).Ok? {
      var m := Numbered(st.log, draft);
      var after := SendMessage(st, draft, now).(clock := now);
      FanOutExact(st.(log := RawInsert(st.log, m).value), m, now);
      FannedOutGrows(st, after, m, now);
      FannedOutKeepsAcked(st, after, m, now);
      GrowsKeepsSound(st, after, now);
    }
  }

  lemma SendKeepsCovered(st: State, draft: Message, now: int)
    requires Sound(st) && Covered(st)
    ensures SendMessage(st, draft, now).subs.Keys <= SendMessage(st, draft, now).acked.Keys
    ensures Covered(SendMessage(st, draft, now))
  {
    if InsertMessage(st.log, draft).Ok? {
      var m := Numbered(st.log, draft);
      var after := SendMessage(st, draft, now);
      FanOutExact(st.(log := after.log), m, now);
      forall id, x | id in after.subs && Owed(after, id, x)
        ensures if x.num <= after.subs[id].lastDelivered then x.num in after.acked[id]
                else after.subs[id].status == Active ==> Key(id, x.num) in after.queue
      {
        if x in st.log.rows {
          assert Owed(st, id, x);
        } else {
          assert x == m;
          assert after.subs[id].status == Active && after.subs[id].lastDelivered < m.num ==>
            Wanted(st.(log := after.log), Key(id, m.num), m);
        }
      }
    }
  }

  // Steps that only change the log: decisions, older-binary inserts, purges, re-opening.

  function WithLog(st: State, log: Log, offBand: set<(RoomId, int)>, now: int): State {
    st.(log := log, offBand := offBand, clock := now)
  }

  lemma LogChangeKeepsSound(st: State, log: Log, offBand: set<(RoomId, int)>, now: int)
    requires Sound(st) && st.clock <= now
    requires LogOk(log) && forall r :: Tip(st.log, r) <= Tip(log, r)
    requires forall m :: m in log.rows ==> m in st.log.rows || Tip(st.log, m.room) < m.num
    ensures Sound(WithLog(st, log, offBand, now))
  {
    GrowsKeepsSound(st, WithLog(st, log, offBand, now), now);
  }

  lemma LogChangeKeepsCovered(st: State, log: Log, offBand: set<(RoomId, int)>, now: int)
    requires Sound(st) && Covered(st)
    requires forall m :: m in log.rows ==> m in st.log.rows || (m.room, m.num) in offBand
    requires st.offBand <= offBand
    ensures Covered(WithLog(st, log, offBand, now))
  {
    var after := WithLog(st, log, offBand, now);
    forall id, m | id in after.subs && Owed(after, id, m) ensures Owed(st, id, m) {}
  }

  lemma OffBandInsert(st: State, m: Message, now: int)
    requires Sound(st) && st.clock <= now && RawInsert(st.log, m).Ok?
    ensures var after := WithLog(st, RawInsert(st.log, m).value, st.offBand + {(m.room, m.num)}, now);
      Sound(after) && (Covered(st) ==> Covered(after))
  {
    RawInsertKeepsLog(st.log, m);
    var log := RawInsert(st.log, m).value;
    LogChangeKeepsSound(st, log, st.offBand + {(m.room, m.num)}, now);
    if Covered(st) { LogChangeKeepsCovered(st, log, st.offBand + {(m.room, m.num)}, now); }
  }

  lemma PurgeStep(st: State, gone: set<string>, now: int)
    requires Sound(st) && st.clock <= now
    ensures var after := WithLog(st, Purge(st.log, gone), st.offBand, now);
      Sound(after) && (Covered(st) ==> Covered(after))
  {
    PurgeKeepsLog(st.log, gone);
    WithoutMembers(st.log.rows, gone);
    LogChangeKeepsSound(st, Purge(st.log, gone), st.offBand, now);
    if Covered(st) { LogChangeKeepsCovered(st, Purge(st.log, gone), st.offBand, now); }
  }

  lemma ReopenStep(st: State, now: int)
    requires Sound(st) && st.clock <= now
    ensures var after := WithLog(st, Reopen(st.log), st.offBand, now).(inflight := map[]);
      Sound(after) && (Covered(st) ==> Covered(after))
  {
    ReopenKeepsTips(st.log);
    LogChangeKeepsSound(st, Reopen(st.log), st.offBand, now);
    var after := WithLog(st, Reopen(st.log), st.offBand, now);
    DropInflight(after);
    if Covered(st) {
      LogChangeKeepsCovered(st, Reopen(st.log), st.offBand, now);
      forall id, m | id in after.subs && Owed(after.(inflight := map[]), id, m) ensures Owed(after, id, m) {}
    }
  }

  lemma DropInflight(st: State)
    requires Sound(st)
    ensures Sound(st.(inflight := map[]))
  {
    var after := st.(inflight := map[]);
    forall id | id in after.acked ensures AckedAt(after, id) { assert AckedAt(st, id); }
  }

  // Subscribing and enabling: both run the enqueue loop over a stretch of history.

  /** The outcome of that loop for `sub` over rows past its cursor. */
  ghost predicate Enqueued(st: State, after: State, id: SubId, sub: Subscription, rows: seq<Message>, now: int) {
    && after == st.(subs := after.subs, acked := after.acked, queue := after.queue, clock := now)
    && id in after.subs && SameCursor(sub, after.subs[id])
    && Extends(st.queue, after.queue)
    && (forall k :: k in after.queue && k !in st.queue ==>
          after.queue[k] == NewRow(after.queue[k].messageId, now) && FromRow(rows, id, sub, k, after.queue[k].messageId))
    && (forall m :: m in rows && MatchesFilter(sub, m) ==> Key(id, m.num) in after.queue)
  }

  lemma EnqueuedGrows(st: State, after: State, id: SubId, sub: Subscription, rows: seq<Message>, now: int)
    requires Sound(st) && st.clock <= now
    requires Enqueued(st, after, id, sub, rows, now)
    requires forall m :: m in rows ==> m in st.log.rows && m.room == sub.room
    requires forall k, j :: k in after.queue && k !in st.queue && j in st.inflight && j.sub == id ==> j.num <= k.num
    requires id in st.subs ==> after.acked == st.acked && SameCursor(st.subs[id], after.subs[id])
    requires id !in st.subs ==> id !in st.acked && after.acked == st.acked[id := []]
    requires after.subs == st.subs[id := after.subs[id]]
    ensures Grows(st, after, now)
  {
    EnqueuedRows(st, after, id, sub, rows, now);
  }

  lemma EnqueuedRows(st: State, after: State, id: SubId, sub: Subscription, rows: seq<Message>, now: int)
    requires Sound(st) && Enqueued(st, after, id, sub, rows, now)
    requires forall m :: m in rows ==> m in st.log.rows && m.room == sub.room
    ensures forall k :: k in after.queue && k !in st.queue ==>
      && k.sub == id && sub.lastDelivered < k.num <= Tip(st.log, sub.room) && IsRowOf(after, k)
      && after.queue[k] == NewRow(after.queue[k].messageId, now)
  {
    forall k | k in after.queue && k !in st.queue
      ensures k.sub == id && sub.lastDelivered < k.num <= Tip(st.log, sub.room) && IsRowOf(after, k)
    {
      var m :| m in rows && m.num == k.num && m.id == after.queue[k].messageId && MatchesFilter(sub, m);
    }
  }

  lemma SubscribeStep(st: State, id: SubId, room: RoomId, owner: string, f: Filters, since: Option<int>, now: int)
    requires Sound(st) && st.clock <= now && id !in st.acked
    ensures var after := Subscribe(st, id, room, owner, f, since, now).(clock := now);
      Sound(after) && (Covered(st) ==> Covered(after))
  {
    var sub := NewSubscription(st, room, owner, f, since);
    var rows := Past(st.log.rows, room, sub.sinceSeq);
    var after := Subscribe(st, id, room, owner, f, since, now).(clock := now);
    PastMembers(st.log.rows, room, sub.sinceSeq);
    EnqueueRowsExact(st.queue, id, sub, rows, now);
    EnqueuedGrows(st, after, id, sub, rows, now);
    GrowsKeepsSound(st, after, now);
    if Covered(st) { SubscribeKeepsCovered(st, id, room, owner, f, since, now); }
  }

  lemma SubscribeKeepsCovered(st: State, id: SubId, room: RoomId, owner: string, f: Filters, since: Option<int>, now: int)
    requires Sound(st) && Covered(st) && id !in st.acked
    ensures var after := Subscribe(st, id, room, owner, f, since, now).(clock := now);
      after.subs.Keys <= after.acked.Keys && Covered(after)
  {
    var sub := NewSubscription(st, room, owner, f, since);
    var rows := Past(st.log.rows, room, sub.sinceSeq);
    var after := Subscribe(st, id, room, owner, f, since, now).(clock := now);
    PastMembers(st.log.rows, room, sub.sinceSeq);
    EnqueueRowsExact(st.queue, id, sub, rows, now);
    forall i, m | i in after.subs && Owed(after, i, m)
      ensures if m.num <= after.subs[i].lastDelivered then m.num in after.acked[i]
              else after.subs[i].status == Active ==> Key(i, m.num) in after.queue
    {
      if i == id { assert m in rows; } else { assert Owed(st, i, m); }
    }
  }

  /** A new subscription's queue holds exactly the retained rows past `since_seq` that
      match its filters, however many pages of history they fill. */
  lemma BackfillExact(st: State, id: SubId, room: RoomId, owner: string, f: Filters, since: Option<int>, now: int)
    requires forall k :: k in st.queue ==> k.sub != id
    ensures forall num :: Key(id, num) in Subscribe(st, id, room, owner, f, since, now).queue <==>
      exists m :: m in st.log.rows && m.room == room && m.num == num && Wants(f, m)
                  && (if since.Some? then since.value else Tip(st.log, room)) < m.num
  {
    var sub := NewSubscription(st, room, owner, f, since);
    var rows := Past(st.log.rows, room, sub.sinceSeq);
    PastMembers(st.log.rows, room, sub.sinceSeq);
    EnqueueRowsExact(st.queue, id, sub, rows, now);
  }

  lemma EnableEnqueues(st: State, id: SubId, owner: string, now: int)
    requires id in st.subs && st.subs[id].owner == owner
    ensures Enqueued(st, Enable(st, id, owner, now).(clock := now), id, st.subs[id], EnablePage(st, id), now)
    ensures forall m :: m in EnablePage(st, id) ==> m in st.log.rows && m.room == st.subs[id].room
  {
    PastMembers(st.log.rows, st.subs[id].room, st.subs[id].lastDelivered);
    EnqueueRowsExact(st.queue, id, st.subs[id], EnablePage(st, id), now);
    assert forall m :: m in EnablePage(st, id) ==> m in Past(st.log.rows, st.subs[id].room, st.subs[id].lastDelivered);
  }

  lemma NoOvertaking(st: State, after: State, id: SubId, now: int)
    requires id in st.subs && !Overtakes(st, id)
    requires Enqueued(st, after, id, st.subs[id], EnablePage(st, id), now)
    ensures forall k, j :: k in after.queue && k !in st.queue && j in st.inflight && j.sub == id ==> j.num <= k.num
  {
    forall k, j | k in after.queue && k !in st.queue && j in st.inflight && j.sub == id ensures j.num <= k.num {
      var m :| m in EnablePage(st, id) && m.num == k.num && MatchesFilter(st.subs[id], m);
      assert Key(id, m.num) == k;
    }
  }

  lemma EnableGrows(st: State, id: SubId, owner: string, now: int)
    requires Sound(st) && st.clock <= now && Calm(st, Enabled(id, owner))
    ensures Grows(st, Enable(st, id, owner, now).(clock := now), now)
  {
    var after := Enable(st, id, owner, now).(clock := now);
    if id in st.subs && st.subs[id].owner == owner {
      EnableEnqueues(st, id, owner, now);
      NoOvertaking(st, after, id, now);
      EnqueuedGrows(st, after, id, st.subs[id], EnablePage(st, id), now);
    }
  }

  lemma EnableKeepsSound(st: State, id: SubId, owner: string, now: int)
    requires Sound(st) && st.clock <= now && Calm(st, Enabled(id, owner))
    ensures Sound(Enable(st, id, owner, now).(clock := now))
  {
    EnableGrows(st, id, owner, now);
    GrowsKeepsSound(st, Enable(st, id, owner, now).(clock := now), now);
  }

  /** Enabling leaves every loaded row at the head of its queue exactly when it adds no
      matching row ahead of one. */
  lemma EnableKeepsOrderIff(st: State, id: SubId, owner: string, now: int)
    requires Sound(st)
    requires id in st.subs && st.subs[id].owner == owner
    ensures InflightOk(Enable(st, id, owner, now)) <==> !Overtakes(st, id)
  {
    var sub := st.subs[id];
    var page := EnablePage(st, id);
    var after := Enable(st, id, owner, now);
    EnqueueRowsExact(st.queue, id, sub, page, now);
    if Overtakes(st, id) {
      var k, m :| k in st.inflight && k.sub == id && m in page && MatchesFilter(sub, m)
        && m.num < k.num && Key(id, m.num) !in st.queue;
      assert Key(id, m.num) in after.queue;
      assert !Head(after.queue, k);
    } else {
      forall k | k in after.inflight && k.sub in after.subs ensures Head(after.queue, k) {
        assert Head(st.queue, k);
      }
    }
  }

  /** Enabling reads one page only, so it restores coverage exactly when nothing owed
      and unqueued lies beyond that page. */
  lemma EnableCoversIff(st: State, id: SubId, owner: string, now: int)
    requires Sound(st) && Covered(st)
    requires id in st.subs && st.subs[id].owner == owner
    ensures Covered(Enable(st, id, owner, now)) <==> BeyondPageQueued(st, id)
  {
    var sub := st.subs[id];
    var page := EnablePage(st, id);
    var after := Enable(st, id, owner, now);
    PastMembers(st.log.rows, sub.room, sub.lastDelivered);
    EnqueueRowsExact(st.queue, id, sub, page, now);
    assert forall m :: m in page ==> m in Past(st.log.rows, sub.room, sub.lastDelivered);
    if BeyondPageQueued(st, id) {
      forall i, m | i in after.subs && Owed(after, i, m)
        ensures if m.num <= after.subs[i].lastDelivered then m.num in after.acked[i]
                else after.subs[i].status == Active ==> Key(i, m.num) in after.queue
      {
        assert Owed(st, i, m);
      }
    }
    if Covered(after) {
      forall m | Owed(st, id, m) && sub.lastDelivered < m.num && m !in page ensures Key(id, m.num) in st.queue {
        assert Owed(after, id, m);
        forall x | x in page && x.num == m.num ensures x == m { SameRow(st.log.rows, x, m); }
      }
    }
  }

  lemma EnableKeepsCovered(st: State, id: SubId, owner: string, now: int)
    requires Sound(st) && Covered(st) && Calm(st, Enabled(id, owner))
    ensures Enable(st, id, owner, now).subs.Keys <= Enable(st, id, owner, now).acked.Keys
    ensures Covered(Enable(st, id, owner, now))
  {
    if id in st.subs && st.subs[id].owner == owner {
      EnableCoversIff(st, id, owner, now);
    }
  }

  lemma UnsubscribeKeepsSound(st: State, id: SubId, owner: string, now: int)
    requires Sound(st) && st.clock <= now
    ensures Sound(Unsubscribe(st, id, owner).(clock := now))
  {
    ShrinksKeepsSound(st, Unsubscribe(st, id, owner).(clock := now), now);
  }

  /** Rows and subscriptions only disappear, a row together with its subscription. */
  lemma ShrinksKeepsSound(st: State, after: State, now: int)
    requires Sound(st) && st.clock <= now
    requires after == st.(subs := after.subs, queue := after.queue, clock := now)
    requires Extends(after.queue, st.queue)
    requires forall id :: id in after.subs ==> id in st.subs && after.subs[id] == st.subs[id]
    requires forall k :: k in st.queue ==> (k in after.queue <==> k.sub in after.subs)
    ensures Sound(after)
  {
  }

  lemma UnsubscribeKeepsCovered(st: State, id: SubId, owner: string)
    requires Sound(st) && Covered(st)
    ensures Covered(Unsubscribe(st, id, owner))
  {
    var after := Unsubscribe(st, id, owner);
    forall i, m | i in after.subs && Owed(after, i, m) ensures Owed(st, i, m) {}
  }

  lemma LoadStep(st: State, batch: seq<Key>, now: int)
    requires Sound(st) && Legal(st, Loaded(batch), now)
    ensures var after := Load(st, batch).(clock := now);
      Sound(after) && (Covered(st) ==> Covered(after))
  {
    var after := Load(st, batch).(clock := now);
    forall j, k | j in after.inflight && k in after.inflight && j.sub == k.sub ensures j == k {
      assert Due(st.queue, j, now) && Due(st.queue, k, now);
    }
    if Covered(st) {
      forall i, m | i in after.subs && Owed(after, i, m) ensures Owed(st, i, m) {}
    }
  }

  // --- One delivery ---

  /** A loaded row is finished: it leaves the batch, possibly leaves the queue or
      changes there, and its subscription's cursor never moves back or passes a pending row. */
  ghost predicate Finishes(st: State, after: State, k: Key, now: int)
    requires k in st.inflight
  {
    && after == st.(subs := after.subs, queue := after.queue, inflight := st.inflight - {k}, acked := after.acked, clock := now)
    && (forall j :: j != k ==> (j in after.queue <==> j in st.queue) && (j in st.queue ==> after.queue[j] == st.queue[j]))
    && (k in after.queue ==> k in st.queue && RowOk(after.queue[k]) && after.queue[k].messageId == st.queue[k].messageId)
    && after.subs.Keys == st.subs.Keys
    && (forall id :: id in st.subs && id != k.sub ==> after.subs[id] == st.subs[id])
    && (forall id :: id in st.acked && id != k.sub ==> id in after.acked && after.acked[id] == st.acked[id])
    && (forall id :: id in after.acked ==> id in st.acked)
    && (k.sub in st.acked ==> k.sub in after.acked)
    && (k.sub in st.subs ==> var prior, next := st.subs[k.sub], after.subs[k.sub];
          || (next == prior.(status := next.status, failureCount := next.failureCount) && after.acked == st.acked)
          || (&& k !in after.queue && next == prior.(lastDelivered := k.num, failureCount := 0)
              && k.sub in st.acked && after.acked[k.sub] == st.acked[k.sub] + [k.num]))
    && (k.sub !in st.subs ==> after.acked == st.acked)
  }

  lemma FinishesKeepsSound(st: State, after: State, k: Key, now: int)
    requires Sound(st) && st.clock <= now && k in st.inflight
    requires Finishes(st, after, k, now)
    ensures Sound(after)
  {
    assert k.sub in st.subs ==> k in st.queue && Head(st.queue, k);
    FinishesKeepsQueue(st, after, k, now);
    FinishesKeepsIds(st, after, k, now);
    FinishesKeepsAcked(st, after, k, now);
    FinishesKeepsInflight(st, after, k, now);
  }

  lemma FinishesKeepsInflight(st: State, after: State, k: Key, now: int)
    requires Sound(st) && st.clock <= now && k in st.inflight
    requires Finishes(st, after, k, now)
    ensures InflightOk(after)
  {
    forall j | j in after.inflight && j.sub in after.subs
      ensures j in after.queue && after.queue[j] == after.inflight[j] && after.queue[j].dueAt <= after.clock
      ensures Head(after.queue, j)
    {
      assert j != k && j in st.queue && Head(st.queue, j);
    }
  }

  lemma FinishesKeepsQueue(st: State, after: State, k: Key, now: int)
    requires Sound(st) && k in st.inflight
    requires Finishes(st, after, k, now)
    ensures QueueOk(after) && RowsOk(after)
  {
    forall j | j in after.queue ensures RowOk(after.queue[j]) { assert j in st.queue; }
    forall j | j in after.queue
      ensures j.sub in after.subs && after.subs[j.sub].lastDelivered < j.num <= Tip(after.log, after.subs[j.sub].room)
    {
      FinishesKeepsPast(st, after, k, now, j);
    }
  }

  lemma FinishesKeepsPast(st: State, after: State, k: Key, now: int, j: Key)
    requires QueueOk(st) && InflightOk(st) && k in st.inflight
    requires Finishes(st, after, k, now) && j in after.queue
    ensures j.sub in after.subs && after.subs[j.sub].lastDelivered < j.num <= Tip(after.log, after.subs[j.sub].room)
  {
    assert j in st.queue;
    if j.sub == k.sub { assert k.num <= j.num; }
  }

  lemma FinishesKeepsIds(st: State, after: State, k: Key, now: int)
    requires Sound(st) && k in st.inflight && QueueOk(after)
    requires Finishes(st, after, k, now)
    ensures QueueIdsOk(after)
  {
    forall j | j in after.queue
      ensures j in st.queue && after.queue[j].messageId == st.queue[j].messageId && after.subs[j.sub].room == st.subs[j.sub].room
    {
    }
  }

  lemma FinishesKeepsAcked(st: State, after: State, k: Key, now: int)
    requires Sound(st) && k in st.inflight
    requires Finishes(st, after, k, now)
    ensures AckedOk(after)
  {
    forall id | id in after.acked ensures AckedAt(after, id) {
      assert AckedAt(st, id);
      if id == k.sub && id in st.subs {
        assert k in st.queue;
        AppendIncreasing(st.acked[id], k.num);
      }
    }
  }

  lemma AppendIncreasing(sent: seq<int>, n: int)
    requires Increasing(sent) && forall x :: x in sent ==> x < n
    ensures Increasing(sent + [n])
  {
    assert forall i :: 0 <= i < |sent| ==> sent[i] in sent;
  }

  lemma ProcessFinishes(st: State, k: Key, outcome: Outcome, now: int)
    requires Sound(st) && st.clock <= now && k in st.inflight
    ensures Finishes(st, Process(st, k, outcome, now).(clock := now), k, now)
  {
    var after := Process(st, k, outcome, now).(clock := now);
    if k.sub in st.subs && k in after.queue && after.queue[k] != st.queue[k] {
      RetryKeepsRow(st.queue[k], now);
    }
  }

  /** A rescheduled row still respects the schedule. */
  lemma RetryKeepsRow(row: Delivery, now: int)
    requires RowOk(row) && row.attempts < |RETRY_SCHEDULE| && row.dueAt <= now
    ensures RowOk(Retry(row, row.attempts, now))
  {
  }

  lemma ProcessKeepsCovered(st: State, k: Key, outcome: Outcome, now: int)
    requires Sound(st) && Covered(st) && k in st.inflight
    ensures Process(st, k, outcome, now).subs.Keys <= Process(st, k, outcome, now).acked.Keys
    ensures Covered(Process(st, k, outcome, now))
  {
    var after := Process(st, k, outcome, now);
    forall id, m | id in after.subs && Owed(after, id, m)
      ensures if m.num <= after.subs[id].lastDelivered then m.num in after.acked[id]
              else after.subs[id].status == Active ==> Key(id, m.num) in after.queue
    {
      assert Owed(st, id, m);
      if id == k.sub {
        assert k in st.queue && Head(st.queue, k);
        if st.subs[id].status == Active && st.subs[id].lastDelivered < m.num <= k.num {
          assert Key(id, m.num) in st.queue;
          assert m.num == k.num && Key(id, m.num) == k;
          assert m.id == st.queue[k].messageId;
          assert HasId(st.log.rows, m.id);
        }
      }
    }
  }

  // --- Whole runs ---

  lemma StepKeepsSound(st: State, e: Event, now: int)
    requires Sound(st) && Legal(st, e, now) && Calm(st, e)
    ensures Sound(Next(st, e, now))
  {
    match e
    case Send(draft) => SendKeepsSound(st, draft, now);
    case Decide(draft) =>
      if InsertMessage(st.log, draft).Ok? { OffBandInsert(st, Numbered(st.log, draft), now); }
      else { LogChangeKeepsSound(st, st.log, st.offBand, now); }
    case Legacy(row) =>
      if RawInsert(st.log, row).Ok? { OffBandInsert(st, row, now); }
      else { LogChangeKeepsSound(st, st.log, st.offBand, now); }
    case Expire(gone) => PurgeStep(st, gone, now);
    case Reopened => ReopenStep(st, now);
    case Subscribed(id, room, owner, f, since) => SubscribeStep(st, id, room, owner, f, since, now);
    case Unsubscribed(id, owner) => UnsubscribeKeepsSound(st, id, owner, now);
    case Enabled(id, owner) => EnableKeepsSound(st, id, owner, now);
    case Loaded(batch) => LoadStep(st, batch, now);
    case Processed(k, outcome) =>
      ProcessFinishes(st, k, outcome, now);
      FinishesKeepsSound(st, Next(st, e, now), k, now);
  }

  lemma ClockKeepsCovered(st: State, now: int)
    requires Sound(st) && Covered(st)
    ensures Covered(st.(clock := now))
  {
    LogChangeKeepsCovered(st, st.log, st.offBand, now);
  }

  lemma StepKeepsCovered(st: State, e: Event, now: int)
    requires Sound(st) && Covered(st) && Legal(st, e, now) && Calm(st, e)
    ensures Sound(Next(st, e, now)) && Covered(Next(st, e, now))
  {
    StepKeepsSound(st, e, now);
    match e
    case Send(draft) =>
      SendKeepsCovered(st, draft, now);
      RenewClock(SendMessage(st, draft, now), Next(st, e, now));
    case Decide(draft) =>
      if InsertMessage(st.log, draft).Ok? { OffBandInsert(st, Numbered(st.log, draft), now); }
      else { ClockKeepsCovered(st, now); }
    case Legacy(row) =>
      if RawInsert(st.log, row).Ok? { OffBandInsert(st, row, now); }
      else { ClockKeepsCovered(st, now); }
    case Expire(gone) => PurgeStep(st, gone, now);
    case Reopened => ReopenStep(st, now);
    case Subscribed(id, room, owner, f, since) => SubscribeStep(st, id, room, owner, f, since, now);
    case Unsubscribed(id, owner) =>
      UnsubscribeKeepsCovered(st, id, owner);
      RenewClock(Unsubscribe(st, id, owner), Next(st, e, now));
    case Enabled(id, owner) =>
      EnableKeepsCovered(st, id, owner, now);
      RenewClock(Enable(st, id, owner, now), Next(st, e, now));
    case Loaded(batch) => LoadStep(st, batch, now);
    case Processed(k, outcome) =>
      ProcessKeepsCovered(st, k, outcome, now);
      RenewClock(Process(st, k, outcome, now), Next(st, e, now));
  }

  lemma RenewClock(st: State, after: State)
    requires st.subs.Keys <= st.acked.Keys && Covered(st) && after == st.(clock := after.clock)
    ensures Covered(after)
  {
    forall id, m | id in after.subs && Owed(after, id, m) ensures Owed(st, id, m) {}
  }

  /** In every calm run, every retained row that was fanned out, lies past `since_seq`
      and matches an active subscription is queued or already answered with 2xx; the
      2xx answers of each subscription are strictly increasing. */
  lemma NothingLostNothingReordered(start: State, run: History, last: State)
    requires Sound(start) && Covered(start)
    requires IsRun(LeadsTo, start, run, last) && forall i :: 0 <= i < |run| ==> Calm(run[i].st, run[i].e.event)
    ensures Sound(last) && Covered(last)
    ensures forall id, m :: id in last.subs && last.subs[id].status == Active && Owed(last, id, m) ==>
      Key(id, m.num) in last.queue || m.num in last.acked[id]
    ensures forall id :: id in last.acked ==> Increasing(last.acked[id])
  {
    var leads := (st: State, t: Timed, next: State) => LeadsTo(st, t, next) && Calm(st, t.event);
    var inv := (st: State) => Sound(st) && Covered(st);
    forall st, t, next | inv(st) && leads(st, t, next) ensures inv(next) { StepKeepsCovered(st, t.event, t.now); }
    forall i | 0 <= i < |run| ensures LeadsOn(leads, run, last, i) { assert LeadsOn(LeadsTo, run, last, i); }
    RunInvariant(leads, inv, start, run, last);
    forall id | id in last.acked ensures Increasing(last.acked[id]) { assert AckedAt(last, id); }
  }

  /** A store that was just created. */
  function Fresh(rooms: set<RoomId>, now: int): State {
    State(Log(rooms, [], map[]), map[], map[], map[], now, {}, map[])
  }

  lemma FreshIsSound(rooms: set<RoomId>, now: int)
    ensures Sound(Fresh(rooms, now)) && Covered(Fresh(rooms, now))
  {
  }

  /** A backlog of at most one page, with no row of the subscription in the worker's hands, is calm. */
  lemma SmallBacklogIsCalm(st: State, id: SubId, owner: string)
    requires id in st.subs
    requires forall k :: k in st.inflight ==> k.sub != id
    requires |Past(st.log.rows, st.subs[id].room, st.subs[id].lastDelivered)| <= HISTORY_PAGE
    ensures Calm(st, Enabled(id, owner))
  {
    PastMembers(st.log.rows, st.subs[id].room, st.subs[id].lastDelivered);
  }

  // --- What no run does, calm or not ---

  /** No cursor moves back and no 2xx is forgotten. */
  ghost predicate Forward(st: State, after: State) {
    && after.subs.Keys <= after.acked.Keys
    && (forall id :: id in st.acked ==> id in after.acked && st.acked[id] <= after.acked[id])
    && (forall id :: id in st.subs && id in after.subs ==>
          after.subs[id].lastDelivered >= st.subs[id].lastDelivered && after.subs[id].sinceSeq == st.subs[id].sinceSeq)
    && (forall id :: id in after.subs && id !in st.subs ==> id !in st.acked)
  }

  lemma StepIsForward(st: State, e: Event, now: int)
    requires st.subs.Keys <= st.acked.Keys && Legal(st, e, now)
    ensures Forward(st, Next(st, e, now))
  {
    match e
    case Processed(k, outcome) => ProcessIsForward(st, k, outcome, now);
    case Enabled(id, owner) => EnableIsForward(st, id, owner, now);
    case Subscribed(id, room, owner, f, since) => SubscribeIsForward(st, id, room, owner, f, since, now);
    case _ =>
  }

  lemma EnableIsForward(st: State, id: SubId, owner: string, now: int)
    requires st.subs.Keys <= st.acked.Keys
    ensures Forward(st, Enable(st, id, owner, now).(clock := now))
  {
  }

  lemma SubscribeIsForward(st: State, id: SubId, room: RoomId, owner: string, f: Filters, since: Option<int>, now: int)
    requires st.subs.Keys <= st.acked.Keys && id !in st.acked
    ensures Forward(st, Subscribe(st, id, room, owner, f, since, now).(clock := now))
  {
  }

  lemma ProcessIsForward(st: State, k: Key, outcome: Outcome, now: int)
    requires st.subs.Keys <= st.acked.Keys && k in st.inflight
    ensures Forward(st, Process(st, k, outcome, now).(clock := now))
  {
  }

  lemma CursorsNeverMoveBack(start: State, run: History, last: State)
    requires start.subs.Keys <= start.acked.Keys && IsRun(LeadsTo, start, run, last)
    ensures Forward(start, last)
  {
    var ahead := (st: State) => Forward(start, st);
    forall st, t, next | ahead(st) && LeadsTo(st, t, next) ensures ahead(next) {
      StepIsForward(st, t.event, t.now);
      ForwardTransitive(start, st, next);
    }
    RunInvariant(LeadsTo, ahead, start, run, last);
  }

  lemma ForwardTransitive(a: State, b: State, c: State)
    requires a.subs.Keys <= a.acked.Keys && Forward(a, b) && Forward(b, c)
    ensures Forward(a, c)
  {
    forall id | id in a.acked ensures id in c.acked && a.acked[id] <= c.acked[id] {
      assert a.acked[id] <= b.acked[id] <= c.acked[id];
    }
  }
}
