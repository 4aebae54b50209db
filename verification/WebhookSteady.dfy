/** What every run of the webhook queue keeps, including those that reorder deliveries. */
module WebhookSteady {
  import opened Wrappers
  import opened Maps
  import opened MessageStore
  import opened Runs
  import opened Webhooks
  import opened WebhookRuns

  /** A loaded row whose subscription still exists is still queued, unchanged, and due. */
  ghost predicate LoadedOk(st: State) {
    && (forall k :: k in st.inflight ==> k.sub in st.acked)
    && forall k :: k in st.inflight && k.sub in st.subs ==> k in st.queue && st.queue[k] == st.inflight[k] && st.queue[k].dueAt <= st.clock
  }

  predicate NoRepeats(s: seq<int>) {
    forall i, j :: 0 <= i < j < |s| ==> s[i] != s[j]
  }

  /** No number was accepted twice, accepted numbers are behind the cursor, and none is queued. */
  ghost predicate OnceAt(st: State, id: SubId)
    requires id in st.acked
  {
    && NoRepeats(st.acked[id])
    && (forall n :: n in st.acked[id] ==> Key(id, n) !in st.queue)
    && (id in st.subs ==> forall n :: n in st.acked[id] ==> n <= st.subs[id].lastDelivered)
  }

  ghost predicate Steady(st: State) {
    && RowsOk(st) && LoadedOk(st)
    && (forall k :: k in st.queue ==> k.sub in st.subs)
    && st.subs.Keys <= st.acked.Keys
    && forall id :: id in st.acked ==> OnceAt(st, id)
  }

  lemma FreshIsSteady(rooms: set<RoomId>, now: int)
    ensures Steady(Fresh(rooms, now))
  {
  }

  /** What sending, subscribing, enabling and changes to the log have in common: existing rows
      stay, new rows are untried and past their cursors, cursors stay, loaded rows stay or are dropped. */
  ghost predicate Adds(st: State, after: State) {
    && st.clock <= after.clock && Extends(st.queue, after.queue)
    && (forall k :: k in after.inflight ==> k in st.inflight && after.inflight[k] == st.inflight[k])
    && (forall k :: k in after.queue && k !in st.queue ==>
          && after.queue[k].attempts == 0 && after.queue[k].posts == []
          && k.sub in after.subs && after.subs[k.sub].lastDelivered < k.num)
    && (forall id :: id in st.subs ==> id in after.subs && after.subs[id].lastDelivered == st.subs[id].lastDelivered)
    && (forall id :: id in after.subs && id !in st.subs ==> id !in st.acked && id in after.acked && after.acked[id] == [])
    && st.acked.Keys <= after.acked.Keys
    && (forall id :: id in after.acked ==> id in after.subs || id in st.acked)
    && (forall id :: id in st.acked ==> after.acked[id] == st.acked[id])
  }

  lemma AddsKeepsSteady(st: State, after: State)
    requires Steady(st) && Adds(st, after)
    ensures Steady(after)
  {
    forall id | id in after.acked ensures OnceAt(after, id) {
      if id in st.acked { assert OnceAt(st, id); }
    }
    forall k | k in after.queue ensures RowOk(after.queue[k]) {
      if k in st.queue { assert RowOk(st.queue[k]); }
    }
  }

  lemma SendKeepsSteady(st: State, draft: Message, now: int)
    requires Steady(st) && st.clock <= now
    ensures Steady(SendMessage(st, draft, now).(clock := now))
  {
    if InsertMessage(st.log, draft).Ok? {
      FanOutExact(st.(log := InsertMessage(st.log, draft).value), Numbered(st.log, draft), now);
    }
    AddsKeepsSteady(st, SendMessage(st, draft, now).(clock := now));
  }

  lemma SubscribeKeepsSteady(st: State, id: SubId, room: RoomId, owner: string, f: Filters, since: Option<int>, now: int)
    requires Steady(st) && st.clock <= now && id !in st.acked
    ensures Steady(Subscribe(st, id, room, owner, f, since, now).(clock := now))
  {
    var sub := NewSubscription(st, room, owner, f, since);
    EnqueueRowsExact(st.queue, id, sub, Past(st.log.rows, room, sub.sinceSeq), now);
    AddsKeepsSteady(st, Subscribe(st, id, room, owner, f, since, now).(clock := now));
  }

  lemma EnableKeepsSteady(st: State, id: SubId, owner: string, now: int)
    requires Steady(st) && st.clock <= now
    ensures Steady(Enable(st, id, owner, now).(clock := now))
  {
    if id in st.subs && st.subs[id].owner == owner {
      EnqueueRowsExact(st.queue, id, st.subs[id], EnablePage(st, id), now);
    }
    AddsKeepsSteady(st, Enable(st, id, owner, now).(clock := now));
  }

  lemma UnsubscribeKeepsSteady(st: State, id: SubId, owner: string, now: int)
    requires Steady(st) && st.clock <= now
    ensures Steady(Unsubscribe(st, id, owner).(clock := now))
  {
    var after := Unsubscribe(st, id, owner).(clock := now);
    forall i | i in after.acked ensures OnceAt(after, i) { assert OnceAt(st, i); }
  }

  lemma LoadKeepsSteady(st: State, batch: seq<Key>, now: int)
    requires Steady(st) && Legal(st, Loaded(batch), now)
    ensures Steady(Load(st, batch).(clock := now))
  {
    var after := Load(st, batch).(clock := now);
    forall i | i in after.acked ensures OnceAt(after, i) { assert OnceAt(st, i); }
    forall k | k in after.inflight ensures after.queue[k].dueAt <= now {
      assert k in batch && Due(st.queue, k, now);
    }
  }

  /** Finishing one delivery: other rows stay; the row's own goes, or stays as a sound row
      behind no accepted number; a newly accepted number was queued until now. */
  ghost predicate Settles(st: State, after: State, k: Key)
    requires k in st.inflight
  {
    && after.inflight == st.inflight - {k} && st.clock <= after.clock && after.subs.Keys == st.subs.Keys
    && (forall j :: j != k ==> (j in after.queue <==> j in st.queue) && (j in st.queue ==> after.queue[j] == st.queue[j]))
    && (k in after.queue ==> k in st.queue && RowOk(after.queue[k]))
    && (forall id :: id in st.subs ==> st.subs[id].lastDelivered <= after.subs[id].lastDelivered)
    && (after.acked == st.acked || Accepts(st, after, k))
  }

  ghost predicate Accepts(st: State, after: State, k: Key) {
    && k in st.queue && k !in after.queue && k.sub in st.acked
    && k.sub in after.subs && k.num <= after.subs[k.sub].lastDelivered
    && after.acked == st.acked[k.sub := st.acked[k.sub] + [k.num]]
  }

  /** What a settlement may say about a subscription and its queued row. */
  ghost predicate SettledOk(sub: Option<Subscription>, row: Option<Delivery>, num: int, done: Settled) {
    && (done.sub.Some? <==> sub.Some?)
    && (sub.Some? ==> sub.value.lastDelivered <= done.sub.value.lastDelivered)
    && (done.row.Some? ==> row.Some? && RowOk(done.row.value))
    && (done.accepted ==> done.row.None? && row.Some? && sub.Some? && num <= done.sub.value.lastDelivered)
  }

  lemma SettleIsOk(sub: Option<Subscription>, row: Option<Delivery>, d: Delivery, num: int, retained: bool, outcome: Outcome, now: int)
    requires row.Some? ==> RowOk(row.value)
    requires sub.Some? ==> row == Some(d) && d.dueAt <= now
    ensures SettledOk(sub, row, num, Settle(sub, row, d, num, retained, outcome, now))
  {
    if sub.Some? && d.attempts < |RETRY_SCHEDULE| { RetryKeepsRow(d, now); }
  }

  lemma FinishSettles(st: State, k: Key, done: Settled, now: int)
    requires Steady(st) && st.clock <= now && k in st.inflight
    requires SettledOk(Find(st.subs, k.sub), Find(st.queue, k), k.num, done)
    ensures Settles(st, Finish(st, k, done).(clock := now), k)
  {
    var after := Finish(st, k, done).(clock := now);
    assert after.subs.Keys == st.subs.Keys;
    if done.accepted { assert Accepts(st, after, k); }
  }

  lemma ProcessKeepsSteady(st: State, k: Key, outcome: Outcome, now: int)
    requires Steady(st) && st.clock <= now && k in st.inflight
    ensures Steady(Process(st, k, outcome, now).(clock := now))
  {
    var d := st.inflight[k];
    var sub, row, kept := Find(st.subs, k.sub), Find(st.queue, k), HasId(st.log.rows, d.messageId);
    SettleIsOk(sub, row, d, k.num, kept, outcome, now);
    FinishSettles(st, k, Settle(sub, row, d, k.num, kept, outcome, now), now);
    SettlesKeepsSteady(st, Process(st, k, outcome, now).(clock := now), k);
  }

  lemma SettlesKeepsOnce(st: State, after: State, k: Key, id: SubId)
    requires Steady(st) && k in st.inflight && Settles(st, after, k) && id in st.acked
    ensures id in after.acked && OnceAt(after, id)
  {
    assert OnceAt(st, id);
    if after.acked[id] != st.acked[id] {
      assert id == k.sub && Key(id, k.num) == k;
      assert k.num !in st.acked[id];
    }
  }

  lemma SettlesKeepsSteady(st: State, after: State, k: Key)
    requires Steady(st) && k in st.inflight && Settles(st, after, k)
    ensures Steady(after)
  {
    SettlesKeepsRows(st, after, k);
    forall id | id in after.acked ensures OnceAt(after, id) { SettlesKeepsOnce(st, after, k, id); }
  }

  lemma SettlesKeepsRows(st: State, after: State, k: Key)
    requires Steady(st) && k in st.inflight && Settles(st, after, k)
    ensures RowsOk(after) && LoadedOk(after) && after.acked.Keys == st.acked.Keys
    ensures forall j :: j in after.queue ==> j.sub in after.subs
  {
    forall j | j in after.queue ensures RowOk(after.queue[j]) && j in st.queue {}
  }

  /** Decisions, older-binary inserts, purges and re-opening touch the log, and drop the
      loaded batch at most. */
  lemma LogStepKeepsSteady(st: State, after: State)
    requires Steady(st) && st.clock <= after.clock
    requires after == st.(log := after.log, offBand := after.offBand, clock := after.clock, inflight := after.inflight)
    requires after.inflight == st.inflight || after.inflight == map[]
    ensures Steady(after)
  {
    AddsKeepsSteady(st, after);
  }

  lemma StepKeepsSteady(st: State, t: Timed)
    requires Steady(st) && Legal(st, t.event, t.now)
    ensures Steady(Next(st, t.event, t.now))
  {
    var now := t.now;
    match t.event
    case Send(draft) => SendKeepsSteady(st, draft, now);
    case Subscribed(id, room, owner, f, since) => SubscribeKeepsSteady(st, id, room, owner, f, since, now);
    case Enabled(id, owner) => EnableKeepsSteady(st, id, owner, now);
    case Unsubscribed(id, owner) => UnsubscribeKeepsSteady(st, id, owner, now);
    case Loaded(batch) => LoadKeepsSteady(st, batch, now);
    case Processed(k, outcome) => ProcessKeepsSteady(st, k, outcome, now);
    case _ => LogStepKeepsSteady(st, Next(st, t.event, now));
  }

  lemma RunKeepsSteady(start: State, run: History, last: State)
    requires Steady(start) && IsRun(LeadsTo, start, run, last)
    ensures Steady(last)
  {
    forall st, t, next | Steady(st) && LeadsTo(st, t, next) ensures Steady(next) { StepKeepsSteady(st, t); }
    RunInvariant(LeadsTo, Steady, start, run, last);
  }

  /** In every run from a fresh store, calm or not, no message gets a 2xx twice from one
      subscription, and none that got one is queued again. */
  lemma NeverAcceptedTwice(rooms: set<RoomId>, now: int, run: History, last: State, id: SubId)
    requires IsRun(LeadsTo, Fresh(rooms, now), run, last) && id in last.acked
    ensures NoRepeats(last.acked[id]) && forall n :: n in last.acked[id] ==> Key(id, n) !in last.queue
  {
    FreshIsSteady(rooms, now);
    RunKeepsSteady(Fresh(rooms, now), run, last);
    assert OnceAt(last, id);
  }
}
