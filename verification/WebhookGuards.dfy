/**
Two promises of the webhook queue that the code keeps only under a condition: nothing owed
to an active subscription is lost, and its receiver accepts in order. Each condition is on
the step that can break the promise, and nothing restricts the runs.
*/
module WebhookGuards {
  import opened Wrappers
  import opened Maps
  import opened MessageStore
  import opened Runs
  import opened Webhooks
  import opened WebhookRuns
  import opened WebhookSteady

  // --- What every run keeps about numbers ---

  /** A queued row stands for one number past the subscription's start, and for the message
      with that number if it is retained. */
  ghost predicate RowKnown(st: State, k: Key)
    requires k in st.queue && k.sub in st.subs
  {
    var sub := st.subs[k.sub];
    && sub.sinceSeq < k.num <= Tip(st.log, sub.room)
    && forall m :: m in st.log.rows && m.room == sub.room && m.num == k.num ==> m.id == st.queue[k].messageId
  }

  /** A cursor is where it started, or at a number that was accepted. */
  ghost predicate CursorKnown(st: State, id: SubId)
    requires id in st.subs && id in st.acked
  {
    var sub := st.subs[id];
    sub.lastDelivered == sub.sinceSeq || (sub.sinceSeq < sub.lastDelivered <= Tip(st.log, sub.room) && sub.lastDelivered in st.acked[id])
  }

  ghost predicate RowsKnown(st: State) {
    forall k :: k in st.queue ==> k.sub in st.subs && RowKnown(st, k)
  }

  ghost predicate CursorsKnown(st: State) {
    forall id :: id in st.subs ==> id in st.acked && CursorKnown(st, id)
  }

  ghost predicate Ledger(st: State) {
    LogOk(st.log) && Steady(st) && RowsKnown(st) && CursorsKnown(st)
  }

  lemma FreshIsLedger(rooms: set<RoomId>, now: int)
    ensures Ledger(Fresh(rooms, now))
  {
    FreshIsSteady(rooms, now);
  }

  /** Tips only rise, and what is new in the log lies above the old ones. */
  ghost predicate LogGrows(log: Log, after: Log) {
    && LogOk(after) && (forall r :: Tip(log, r) <= Tip(after, r))
    && forall m :: m in after.rows ==> m in log.rows || Tip(log, m.room) < m.num
  }

  /** Rows, cursors and accepted numbers stay, and new rows and subscriptions are known. */
  ghost predicate Records(st: State, after: State) {
    && LogGrows(st.log, after.log) && Extends(st.queue, after.queue)
    && (forall k :: k in after.queue && k !in st.queue ==> k.sub in after.subs && RowKnown(after, k))
    && (forall id :: id in st.subs ==> id in after.subs && SameCursor(st.subs[id], after.subs[id]))
    && (forall id :: id in after.subs && id !in st.subs ==> after.subs[id].lastDelivered == after.subs[id].sinceSeq)
    && (forall id :: id in st.acked ==> id in after.acked && after.acked[id] == st.acked[id])
  }

  lemma RecordsKeepsRows(st: State, after: State)
    requires RowsKnown(st) && Records(st, after)
    ensures RowsKnown(after)
  {
    forall k | k in after.queue ensures k.sub in after.subs && RowKnown(after, k) {
      if k in st.queue { assert RowKnown(st, k); }
    }
  }

  lemma RecordsKeepsCursors(st: State, after: State)
    requires CursorsKnown(st) && Records(st, after) && after.subs.Keys <= after.acked.Keys
    ensures CursorsKnown(after)
  {
    forall id | id in after.subs ensures CursorKnown(after, id) {
      if id in st.subs { assert CursorKnown(st, id); }
    }
  }

  lemma RecordsKeepsLedger(st: State, after: State)
    requires Ledger(st) && Steady(after) && Records(st, after)
    ensures Ledger(after)
  {
    RecordsKeepsRows(st, after);
    RecordsKeepsCursors(st, after);
  }

  lemma SentIsKnown(st: State, m: Message, after: State, now: int, k: Key)
    requires LogOk(st.log) && CursorsKnown(st) && RawInsert(st.log, m).Ok?
    requires FannedOut(st.(log := RawInsert(st.log, m).value), after.(clock := st.clock), m, now)
    requires k in after.queue && k !in st.queue
    ensures k.sub in after.subs && RowKnown(after, k)
  {
    RawInsertKeepsLog(st.log, m);
    assert CursorKnown(st, k.sub);
    forall x | x in after.log.rows && x.room == m.room && x.num == m.num ensures x == m {}
  }

  lemma SendKeepsLedger(st: State, draft: Message, now: int)
    requires Ledger(st) && st.clock <= now
    ensures Ledger(SendMessage(st, draft, now).(clock := now))
  {
    var after := SendMessage(st, draft, now).(clock := now);
    SendKeepsSteady(st, draft, now);
    if InsertMessage(st.log, draft).Ok? {
      var m := Numbered(st.log, draft);
      RawInsertKeepsLog(st.log, m);
      FanOutExact(st.(log := after.log), m, now);
      SentRecords(st, m, after, now);
    }
    RecordsKeepsLedger(st, after);
  }

  lemma SentRecords(st: State, m: Message, after: State, now: int)
    requires LogOk(st.log) && CursorsKnown(st) && RawInsert(st.log, m).Ok?
    requires FannedOut(st.(log := RawInsert(st.log, m).value), after.(clock := st.clock), m, now)
    ensures Records(st, after)
  {
    RawInsertKeepsLog(st.log, m);
    forall k | k in after.queue && k !in st.queue ensures k.sub in after.subs && RowKnown(after, k) {
      SentIsKnown(st, m, after, now, k);
    }
  }

  /** A row enqueued from history is known. */
  lemma FromRowIsKnown(st: State, k: Key, rows: seq<Message>, sub: Subscription)
    requires LogOk(st.log) && k in st.queue && k.sub in st.subs && SameCursor(sub, st.subs[k.sub])
    requires sub.sinceSeq <= sub.lastDelivered && FromRow(rows, k.sub, sub, k, st.queue[k].messageId)
    requires forall m :: m in rows ==> m in st.log.rows && m.room == sub.room
    ensures RowKnown(st, k)
  {
    var x :| x in rows && x.num == k.num && x.id == st.queue[k].messageId && MatchesFilter(sub, x);
    forall m | m in st.log.rows && m.room == sub.room && m.num == k.num ensures m == x { SameRow(st.log.rows, m, x); }
  }

  lemma SubscribeRecords(st: State, id: SubId, room: RoomId, owner: string, f: Filters, since: Option<int>, now: int)
    requires LogOk(st.log) && st.subs.Keys <= st.acked.Keys && id !in st.acked
    ensures Records(st, Subscribe(st, id, room, owner, f, since, now).(clock := now))
  {
    var sub := NewSubscription(st, room, owner, f, since);
    var rows, after := Past(st.log.rows, room, sub.sinceSeq), Subscribe(st, id, room, owner, f, since, now).(clock := now);
    PastMembers(st.log.rows, room, sub.sinceSeq);
    EnqueueRowsExact(st.queue, id, sub, rows, now);
    forall k | k in after.queue && k !in st.queue ensures k.sub in after.subs && RowKnown(after, k) { FromRowIsKnown(after, k, rows, sub); }
  }

  lemma SubscribeKeepsLedger(st: State, id: SubId, room: RoomId, owner: string, f: Filters, since: Option<int>, now: int)
    requires Ledger(st) && st.clock <= now && id !in st.acked
    ensures Ledger(Subscribe(st, id, room, owner, f, since, now).(clock := now))
  {
    SubscribeKeepsSteady(st, id, room, owner, f, since, now);
    SubscribeRecords(st, id, room, owner, f, since, now);
    RecordsKeepsLedger(st, Subscribe(st, id, room, owner, f, since, now).(clock := now));
  }

  lemma EnableRecords(st: State, id: SubId, owner: string, now: int)
    requires LogOk(st.log) && CursorsKnown(st)
    ensures Records(st, Enable(st, id, owner, now).(clock := now))
  {
    var after := Enable(st, id, owner, now).(clock := now);
    if id in st.subs && st.subs[id].owner == owner {
      EnableEnqueues(st, id, owner, now);
      assert CursorKnown(st, id);
      forall k | k in after.queue && k !in st.queue ensures k.sub in after.subs && RowKnown(after, k) {
        FromRowIsKnown(after, k, EnablePage(st, id), st.subs[id]);
      }
    }
  }

  lemma EnableKeepsLedger(st: State, id: SubId, owner: string, now: int)
    requires Ledger(st) && st.clock <= now
    ensures Ledger(Enable(st, id, owner, now).(clock := now))
  {
    EnableKeepsSteady(st, id, owner, now);
    EnableRecords(st, id, owner, now);
    RecordsKeepsLedger(st, Enable(st, id, owner, now).(clock := now));
  }

  lemma LogStepKeepsLedger(st: State, after: State)
    requires Ledger(st) && st.clock <= after.clock && LogGrows(st.log, after.log)
    requires after == st.(log := after.log, offBand := after.offBand, clock := after.clock, inflight := after.inflight)
    requires after.inflight == st.inflight || after.inflight == map[]
    ensures Ledger(after)
  {
    LogStepKeepsSteady(st, after);
    RecordsKeepsLedger(st, after);
  }

  lemma UnsubscribeKeepsLedger(st: State, id: SubId, owner: string, now: int)
    requires Ledger(st) && st.clock <= now
    ensures Ledger(Unsubscribe(st, id, owner).(clock := now))
  {
    var after := Unsubscribe(st, id, owner).(clock := now);
    UnsubscribeKeepsSteady(st, id, owner, now);
    forall k | k in after.queue ensures k.sub in after.subs && RowKnown(after, k) { assert RowKnown(st, k); }
    forall i | i in after.subs ensures CursorKnown(after, i) { assert CursorKnown(st, i); }
  }

  lemma LoadKeepsLedger(st: State, batch: seq<Key>, now: int)
    requires Ledger(st) && Legal(st, Loaded(batch), now)
    ensures Ledger(Load(st, batch).(clock := now))
  {
    var after := Load(st, batch).(clock := now);
    LoadKeepsSteady(st, batch, now);
    forall k | k in after.queue ensures k.sub in after.subs && RowKnown(after, k) { assert RowKnown(st, k); }
    forall i | i in after.subs ensures CursorKnown(after, i) { assert CursorKnown(st, i); }
  }

  /** What a settlement leaves alone, and when it moves the cursor. */
  ghost predicate Moves(sub: Option<Subscription>, row: Option<Delivery>, num: int, done: Settled) {
    && (done.sub.Some? <==> sub.Some?)
    && (done.accepted ==> sub.Some?)
    && (sub.Some? ==> SameCursor(sub.value.(lastDelivered := done.sub.value.lastDelivered), done.sub.value))
    && (sub.Some? ==> done.sub.value.lastDelivered == if done.accepted && sub.value.lastDelivered < num then num else sub.value.lastDelivered)
    && (done.row.Some? ==> row.Some? && done.row.value.messageId == row.value.messageId)
  }

  function Settlement(st: State, k: Key, outcome: Outcome, now: int): Settled
    requires k in st.inflight
  {
    var d := st.inflight[k];
    Settle(Find(st.subs, k.sub), Find(st.queue, k), d, k.num, HasId(st.log.rows, d.messageId), outcome, now)
  }

  lemma SettlementMoves(st: State, k: Key, outcome: Outcome, now: int)
    requires k in st.inflight
    ensures Moves(Find(st.subs, k.sub), Find(st.queue, k), k.num, Settlement(st, k, outcome, now))
    ensures Process(st, k, outcome, now) == Finish(st, k, Settlement(st, k, outcome, now))
  {
  }

  lemma FinishKeepsRows(st: State, k: Key, done: Settled)
    requires RowsKnown(st) && Moves(Find(st.subs, k.sub), Find(st.queue, k), k.num, done)
    ensures RowsKnown(Finish(st, k, done))
  {
    var after := Finish(st, k, done);
    forall j | j in after.queue ensures j.sub in after.subs && RowKnown(after, j) { assert j in st.queue && RowKnown(st, j); }
  }

  lemma FinishKeepsCursors(st: State, k: Key, done: Settled)
    requires RowsKnown(st) && CursorsKnown(st) && (done.accepted ==> k in st.queue)
    requires Moves(Find(st.subs, k.sub), Find(st.queue, k), k.num, done)
    ensures CursorsKnown(Finish(st, k, done))
  {
    var after := Finish(st, k, done);
    forall id | id in after.subs ensures id in after.acked && CursorKnown(after, id) {
      assert CursorKnown(st, id);
      if id == k.sub && done.accepted { assert RowKnown(st, k); }
    }
  }

  lemma ClockKeepsLedger(st: State, after: State)
    requires LogOk(st.log) && RowsKnown(st) && CursorsKnown(st) && after == st.(clock := after.clock) && Steady(after)
    ensures Ledger(after)
  {
    forall k | k in after.queue ensures k.sub in after.subs && RowKnown(after, k) { assert RowKnown(st, k); }
    forall id | id in after.subs ensures CursorKnown(after, id) { assert CursorKnown(st, id); }
  }

  lemma ProcessKeepsLedger(st: State, k: Key, outcome: Outcome, now: int)
    requires Ledger(st) && st.clock <= now && k in st.inflight
    ensures Ledger(Process(st, k, outcome, now).(clock := now))
  {
    var done := Settlement(st, k, outcome, now);
    SettlementMoves(st, k, outcome, now);
    ProcessKeepsSteady(st, k, outcome, now);
    FinishKeepsRows(st, k, done);
    FinishKeepsCursors(st, k, done);
    ClockKeepsLedger(Finish(st, k, done), Process(st, k, outcome, now).(clock := now));
  }

  lemma StepKeepsLedger(st: State, t: Timed)
    requires Ledger(st) && Legal(st, t.event, t.now)
    ensures Ledger(Next(st, t.event, t.now))
  {
    var now := t.now;
    match t.event
    case Send(draft) => SendKeepsLedger(st, draft, now);
    case Subscribed(id, room, owner, f, since) => SubscribeKeepsLedger(st, id, room, owner, f, since, now);
    case Enabled(id, owner) => EnableKeepsLedger(st, id, owner, now);
    case Unsubscribed(id, owner) => UnsubscribeKeepsLedger(st, id, owner, now);
    case Loaded(batch) => LoadKeepsLedger(st, batch, now);
    case Processed(k, outcome) => ProcessKeepsLedger(st, k, outcome, now);
    case _ =>
      LogEventGrows(st, t.event, now);
      LogStepKeepsLedger(st, Next(st, t.event, now));
  }

  /** Decisions, older-binary inserts, purges and re-opening; none of them adds an owed message. */
  predicate LogEvent(e: Event) {
    e.Decide? || e.Legacy? || e.Expire? || e.Reopened?
  }

  lemma InsertGrows(log: Log, m: Message)
    requires LogOk(log)
    ensures RawInsert(log, m).Ok? ==> LogGrows(log, RawInsert(log, m).value)
  {
    if RawInsert(log, m).Ok? { RawInsertKeepsLog(log, m); }
  }

  lemma LogEventGrows(st: State, e: Event, now: int)
    requires LogOk(st.log) && Legal(st, e, now) && LogEvent(e)
    ensures var after := Next(st, e, now);
      && LogGrows(st.log, after.log) && st.offBand <= after.offBand
      && forall m :: m in after.log.rows ==> m in st.log.rows || (m.room, m.num) in after.offBand
  {
    match e
    case Decide(draft) => InsertGrows(st.log, Numbered(st.log, draft));
    case Legacy(row) => InsertGrows(st.log, row);
    case Expire(gone) =>
      PurgeKeepsLog(st.log, gone);
      WithoutMembers(st.log.rows, gone);
    case Reopened => ReopenKeepsTips(st.log);
    case _ =>
  }

  // --- Nothing is lost ---

  /** The message is queued, or was answered with 2xx. */
  ghost predicate HandedOn(st: State, id: SubId, m: Message) {
    Key(id, m.num) in st.queue || (id in st.acked && m.num in st.acked[id])
  }

  ghost predicate Lost(st: State, id: SubId, m: Message) {
    id in st.subs && st.subs[id].status == Active && Owed(st, id, m) && !HandedOn(st, id, m)
  }

  /** Everything owed to an active subscription is handed on. */
  ghost predicate NothingLost(st: State) {
    forall id, m :: id in st.subs && st.subs[id].status == Active && Owed(st, id, m) ==> HandedOn(st, id, m)
  }

  /** Not an enable by the owner while something owed, outside the page it re-reads, is not
      handed on. That is what lies more than a page past the cursor, or behind it. */
  ghost predicate ReachesAll(st: State, t: Timed) {
    t.event.Enabled? && t.event.id in st.subs && st.subs[t.event.id].owner == t.event.owner ==>
      forall m :: Owed(st, t.event.id, m) && m !in EnablePage(st, t.event.id) ==> HandedOn(st, t.event.id, m)
  }

  ghost predicate NothingLostAt(st: State, id: SubId) {
    forall m :: id in st.subs && st.subs[id].status == Active && Owed(st, id, m) ==> HandedOn(st, id, m)
  }

  /** Everything owed that is on the page is queued afterwards, the rest is as it was. */
  lemma PageHandsOn(st: State, id: SubId, owner: string, now: int, m: Message)
    requires Ledger(st) && id in st.subs && st.subs[id].owner == owner && Owed(st, id, m)
    ensures var after := Enable(st, id, owner, now).(clock := now);
      Owed(after, id, m) && (HandedOn(after, id, m) <==> m in EnablePage(st, id) || HandedOn(st, id, m))
  {
    var after := Enable(st, id, owner, now).(clock := now);
    EnableEnqueues(st, id, owner, now);
    PastMembers(st.log.rows, st.subs[id].room, st.subs[id].lastDelivered);
    if m in EnablePage(st, id) {
      assert m in Past(st.log.rows, st.subs[id].room, st.subs[id].lastDelivered);
    } else {
      PageAddsNoOther(st, after, id, m, now);
    }
  }

  lemma EnableOwnLosesIff(st: State, id: SubId, owner: string, now: int)
    requires Ledger(st) && id in st.subs && st.subs[id].owner == owner
    ensures NothingLostAt(Enable(st, id, owner, now).(clock := now), id) <==> ReachesAll(st, Timed(Enabled(id, owner), now))
  {
    var after := Enable(st, id, owner, now).(clock := now);
    forall m | Owed(st, id, m)
      ensures Owed(after, id, m) && (HandedOn(after, id, m) <==> m in EnablePage(st, id) || HandedOn(st, id, m))
    {
      PageHandsOn(st, id, owner, now, m);
    }
    forall m | Owed(after, id, m) ensures Owed(st, id, m) {}
  }

  lemma EnableOthersLoseNothing(st: State, id: SubId, owner: string, now: int, i: SubId)
    requires NothingLost(st) && (i != id || (id in st.subs && st.subs[id].owner != owner))
    ensures NothingLostAt(Enable(st, id, owner, now).(clock := now), i)
  {
    var after := Enable(st, id, owner, now).(clock := now);
    if id in st.subs && st.subs[id].owner == owner { EnableEnqueues(st, id, owner, now); }
    forall m | i in after.subs && after.subs[i].status == Active && Owed(after, i, m) ensures HandedOn(after, i, m) {
      assert Owed(st, i, m);
    }
  }

  /** An enable by the owner loses nothing exactly if everything owed outside its page is
      handed on; any other loses nothing. */
  lemma EnableLosesIff(st: State, id: SubId, owner: string, now: int)
    requires Ledger(st) && NothingLost(st)
    ensures NothingLost(Enable(st, id, owner, now).(clock := now)) <==> ReachesAll(st, Timed(Enabled(id, owner), now))
  {
    var after := Enable(st, id, owner, now).(clock := now);
    forall i | i != id || (id in st.subs && st.subs[id].owner != owner) ensures NothingLostAt(after, i) {
      EnableOthersLoseNothing(st, id, owner, now, i);
    }
    if id in st.subs && st.subs[id].owner == owner { EnableOwnLosesIff(st, id, owner, now); }
    if NothingLostAt(after, id) {
      forall i, m | i in after.subs && after.subs[i].status == Active && Owed(after, i, m) ensures HandedOn(after, i, m) {
        assert NothingLostAt(after, i);
      }
    }
  }

  /** What is not on the page is not queued by reading it. */
  lemma PageAddsNoOther(st: State, after: State, id: SubId, m: Message, now: int)
    requires Ledger(st) && id in st.subs && Enqueued(st, after, id, st.subs[id], EnablePage(st, id), now)
    requires forall x :: x in EnablePage(st, id) ==> x in st.log.rows && x.room == st.subs[id].room
    requires Owed(st, id, m) && m !in EnablePage(st, id)
    ensures Key(id, m.num) in after.queue <==> Key(id, m.num) in st.queue
  {
    if Key(id, m.num) in after.queue && Key(id, m.num) !in st.queue {
      var x :| x in EnablePage(st, id) && x.num == m.num && MatchesFilter(st.subs[id], x);
      SameRow(st.log.rows, x, m);
    }
  }

  lemma SendLosesNothing(st: State, draft: Message, now: int)
    requires Ledger(st) && NothingLost(st)
    ensures NothingLost(SendMessage(st, draft, now).(clock := now))
  {
    var after := SendMessage(st, draft, now).(clock := now);
    if InsertMessage(st.log, draft).Ok? {
      var m := Numbered(st.log, draft);
      FanOutExact(st.(log := after.log), m, now);
      forall id, x | id in after.subs && after.subs[id].status == Active && Owed(after, id, x) ensures HandedOn(after, id, x) {
        if x in st.log.rows {
          assert Owed(st, id, x);
        } else {
          assert x == m && CursorKnown(st, id);
          assert Wanted(st.(log := after.log), Key(id, m.num), m);
        }
      }
    } else {
      forall id, x | id in after.subs && Owed(after, id, x) ensures Owed(st, id, x) {}
    }
  }

  lemma SubscribeLosesNothing(st: State, id: SubId, room: RoomId, owner: string, f: Filters, since: Option<int>, now: int)
    requires Ledger(st) && NothingLost(st) && id !in st.acked
    ensures NothingLost(Subscribe(st, id, room, owner, f, since, now).(clock := now))
  {
    var sub := NewSubscription(st, room, owner, f, since);
    var rows, after := Past(st.log.rows, room, sub.sinceSeq), Subscribe(st, id, room, owner, f, since, now).(clock := now);
    PastMembers(st.log.rows, room, sub.sinceSeq);
    EnqueueRowsExact(st.queue, id, sub, rows, now);
    forall i, m | i in after.subs && after.subs[i].status == Active && Owed(after, i, m) ensures HandedOn(after, i, m) {
      if i == id { assert m in rows; } else { assert Owed(st, i, m); }
    }
  }

  /** Nothing more is owed, and what was handed on to a subscription that remains still is. */
  lemma QuietStepLosesNothing(st: State, after: State)
    requires NothingLost(st)
    requires forall id :: id in after.subs ==> id in st.subs && after.subs[id] == st.subs[id]
    requires forall m :: m in after.log.rows ==> m in st.log.rows || (m.room, m.num) in after.offBand
    requires st.offBand <= after.offBand && after.acked == st.acked
    requires forall k :: k in st.queue && k.sub in after.subs ==> k in after.queue
    ensures NothingLost(after)
  {
    forall id, m | id in after.subs && after.subs[id].status == Active && Owed(after, id, m) ensures HandedOn(after, id, m) {
      assert Owed(st, id, m);
    }
  }

  /** A row leaves the queue when it was accepted, when its message is gone, or together with
      its subscription's active status. */
  lemma ProcessLosesNothing(st: State, k: Key, outcome: Outcome, now: int)
    requires Ledger(st) && NothingLost(st) && k in st.inflight
    ensures NothingLost(Process(st, k, outcome, now).(clock := now))
  {
    var after := Process(st, k, outcome, now).(clock := now);
    forall id, m | id in after.subs && after.subs[id].status == Active && Owed(after, id, m) ensures HandedOn(after, id, m) {
      assert Owed(st, id, m) && HandedOn(st, id, m);
      if k == Key(id, m.num) { OwnRowLosesNothing(st, k, m, outcome, now); }
    }
  }

  lemma OwnRowLosesNothing(st: State, k: Key, m: Message, outcome: Outcome, now: int)
    requires Ledger(st) && k in st.inflight && k.sub in st.subs && Owed(st, k.sub, m) && m.num == k.num
    requires HandedOn(st, k.sub, m)
    requires k.sub in Process(st, k, outcome, now).subs && Process(st, k, outcome, now).subs[k.sub].status == Active
    ensures HandedOn(Process(st, k, outcome, now), k.sub, m)
  {
    assert RowKnown(st, k);
    assert HasId(st.log.rows, st.inflight[k].messageId);
  }

  /** A step loses nothing exactly if it is not an enable that leaves something behind. */
  lemma StepLosesIff(st: State, t: Timed)
    requires Ledger(st) && NothingLost(st) && Legal(st, t.event, t.now)
    ensures NothingLost(Next(st, t.event, t.now)) <==> ReachesAll(st, t)
  {
    match t.event
    case Enabled(id, owner) => EnableLosesIff(st, id, owner, t.now);
    case Send(draft) => SendLosesNothing(st, draft, t.now);
    case Subscribed(id, room, owner, f, since) => SubscribeLosesNothing(st, id, room, owner, f, since, t.now);
    case Processed(k, outcome) => ProcessLosesNothing(st, k, outcome, t.now);
    case _ => QuietEventLosesNothing(st, t);
  }

  lemma QuietEventLosesNothing(st: State, t: Timed)
    requires Ledger(st) && NothingLost(st) && Legal(st, t.event, t.now)
    requires LogEvent(t.event) || t.event.Unsubscribed? || t.event.Loaded?
    ensures NothingLost(Next(st, t.event, t.now))
  {
    if LogEvent(t.event) { LogEventGrows(st, t.event, t.now); }
    QuietStepLosesNothing(st, Next(st, t.event, t.now));
  }

  /** In every run from a fresh store, everything owed to an active subscription is queued or
      was answered with 2xx at all times if and only if, at every enable by the owner, that
      holds already for what the page it re-reads leaves out. */
  lemma NothingLostIff(rooms: set<RoomId>, now: int, run: History, last: State)
    requires IsRun(LeadsTo, Fresh(rooms, now), run, last)
    ensures (NothingLost(last) && forall i :: 0 <= i < |run| ==> NothingLost(run[i].st)) <==> (forall i :: 0 <= i < |run| ==> ReachesAll(run[i].st, run[i].e))
  {
    forall st, t, next | Ledger(st) && LeadsTo(st, t, next)
      ensures Ledger(next) && (NothingLost(st) ==> (NothingLost(next) <==> ReachesAll(st, t)))
    {
      StepKeepsLedger(st, t);
      if NothingLost(st) { StepLosesIff(st, t); }
    }
    FreshIsLedger(rooms, now);
    ThroughoutIff(LeadsTo, Ledger, NothingLost, ReachesAll, Fresh(rooms, now), run, last);
  }

  // --- Accepted in order ---

  /** Each receiver accepts numbers in strictly increasing order. */
  ghost predicate InOrder(st: State) {
    forall id :: id in st.acked ==> Increasing(st.acked[id])
  }

  /** Not a 2xx for a row that the cursor has reached already, where the UPDATE of the cursor
      changes nothing. */
  ghost predicate PastCursor(st: State, t: Timed) {
    t.event.Processed? && t.event.outcome == Accepted2xx && t.event.key in st.inflight ==>
      var k := t.event.key;
      k.sub in st.subs && st.subs[k.sub].status == Active && HasId(st.log.rows, st.inflight[k].messageId) ==>
        st.subs[k.sub].lastDelivered < k.num
  }

  lemma AppendIncreasingIff(s: seq<int>, n: int, top: int)
    requires Increasing(s) && (forall x :: x in s ==> x <= top) && (n <= top ==> top in s)
    ensures Increasing(s + [n]) <==> top < n
  {
    if top < n {
      AppendIncreasing(s, n);
    } else {
      var i :| 0 <= i < |s| && s[i] == top;
      assert (s + [n])[i] == top && (s + [n])[|s|] == n;
    }
  }

  /** A 2xx keeps the order exactly if it moves the cursor. */
  lemma AcceptInOrderIff(st: State, k: Key, outcome: Outcome, now: int)
    requires Ledger(st) && InOrder(st) && k in st.inflight
    ensures InOrder(Process(st, k, outcome, now).(clock := now)) <==> PastCursor(st, Timed(Processed(k, outcome), now))
  {
    var after := Process(st, k, outcome, now).(clock := now);
    if Settlement(st, k, outcome, now).accepted {
      var sub, sent := st.subs[k.sub], st.acked[k.sub];
      assert RowKnown(st, k) && CursorKnown(st, k.sub) && OnceAt(st, k.sub);
      AppendIncreasingIff(sent, k.num, sub.lastDelivered);
      assert after.acked[k.sub] == sent + [k.num];
    } else {
      assert after.acked == st.acked;
    }
  }

  lemma StepInOrderIff(st: State, t: Timed)
    requires Ledger(st) && InOrder(st) && Legal(st, t.event, t.now)
    ensures InOrder(Next(st, t.event, t.now)) <==> PastCursor(st, t)
  {
    if t.event.Processed? {
      AcceptInOrderIff(st, t.event.key, t.event.outcome, t.now);
    } else {
      AckedStays(st, t);
    }
  }

  lemma AckedStays(st: State, t: Timed)
    requires Legal(st, t.event, t.now) && !t.event.Processed?
    ensures forall id :: id in Next(st, t.event, t.now).acked ==>
      Next(st, t.event, t.now).acked[id] == if id in st.acked then st.acked[id] else []
  {
  }

  /** In every run from a fresh store, all 2xx answers come in strictly increasing order if and
      only if each of them moves its subscription's cursor. */
  lemma InOrderIff(rooms: set<RoomId>, now: int, run: History, last: State)
    requires IsRun(LeadsTo, Fresh(rooms, now), run, last)
    ensures (InOrder(last) && forall i :: 0 <= i < |run| ==> InOrder(run[i].st)) <==> (forall i :: 0 <= i < |run| ==> PastCursor(run[i].st, run[i].e))
  {
    forall st, t, next | Ledger(st) && LeadsTo(st, t, next)
      ensures Ledger(next) && (InOrder(st) ==> (InOrder(next) <==> PastCursor(st, t)))
    {
      StepKeepsLedger(st, t);
      if InOrder(st) { StepInOrderIff(st, t); }
    }
    FreshIsLedger(rooms, now);
    ThroughoutIff(LeadsTo, Ledger, InOrder, PastCursor, Fresh(rooms, now), run, last);
  }
}
