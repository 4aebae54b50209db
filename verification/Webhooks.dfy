/**
The webhook delivery queue: subscriptions over a room's message log, fan-out of new
rows, backfill of old ones, head-of-line batches, retries, and re-enabling.

A delivery row is identified by its UNIQUE pair (subscription, message number).
*/
module Webhooks {
  import opened Wrappers
  import opened Maps
  import opened MessageStore
  import opened Runs

  type SubId = string

  // Seconds to wait after the first, second, ... failed attempt.
  const RETRY_SCHEDULE: seq<nat> := [1, 4, 16, 64, 256]
  const BATCH_LIMIT: nat := 32
  const HISTORY_PAGE: nat := 1000

  datatype Filters = Filters(
    kinds: seq<string>, onlyFrom: Option<string>, notFrom: Option<string>, excludeThinking: bool)

  datatype Status = Active | Failed

  datatype Subscription = Subscription(
    room: RoomId, owner: string, filters: Filters, sinceSeq: int, lastDelivered: int,
    status: Status, failureCount: nat)

  datatype Key = Key(sub: SubId, num: int)

  /** `posts` is history: the times at which this row was POSTed and not accepted. */
  datatype Delivery = Delivery(messageId: string, attempts: nat, dueAt: int, posts: seq<int>)

  type Queue = map<Key, Delivery>

  /** What one HTTP attempt came to: the URL no longer resolves to a public address,
      a 2xx answer, or any other answer or transport error. */
  datatype Outcome = Blocked | Accepted2xx | Rejected

  /** The part of a filter that does not depend on the cursor. */
  predicate Wants(f: Filters, m: Message) {
    && m.metaType != Some("system")
    && !(f.excludeThinking && m.metaType == Some("thinking"))
    && (f.kinds != [] ==> m.kind.Some? && m.kind.value in f.kinds)
    && (f.onlyFrom.Some? ==> m.agentName == f.onlyFrom.value)
    && (f.notFrom.Some? ==> m.agentName != f.notFrom.value)
  }

  predicate MatchesFilter(sub: Subscription, m: Message) {
    sub.lastDelivered < m.num && Wants(sub.filters, m)
  }

  // --- The server's tables, and what is observable from outside ---

  /** `inflight` is the batch the worker has loaded and not finished. `offBand` and
      `acked` are history: the rows stored without fan-out, and the numbers each
      subscription's receiver answered with 2xx, in order. */
  datatype State = State(
    log: Log, subs: map<SubId, Subscription>, queue: Queue, inflight: Queue, clock: int,
    offBand: set<(RoomId, int)>, acked: map<SubId, seq<int>>)

  function NewRow(messageId: string, now: int): Delivery {
    Delivery(messageId, 0, now, [])
  }

  /** INSERT into the delivery table; a row that already exists is left alone. */
  function Enqueue(queue: Queue, k: Key, messageId: string, now: int): Queue {
    if k in queue then queue else queue[k := NewRow(messageId, now)]
  }

  /** The loop shared by backfill and re-enable: every matching row, in order. */
  function EnqueueRows(queue: Queue, id: SubId, sub: Subscription, rows: seq<Message>, now: int): Queue
    decreases rows
  {
    if rows == [] then queue
    else
      var next := if MatchesFilter(sub, rows[0]) then Enqueue(queue, Key(id, rows[0].num), rows[0].id, now) else queue;
      EnqueueRows(next, id, sub, rows[1..], now)
  }

  /** Keys of the rows fan-out adds for `m`: one per active, matching subscription. */
  function FanOutKeys(st: State, m: Message): set<Key> {
    set id | id in st.subs && st.subs[id].status == Active && st.subs[id].room == m.room
             && MatchesFilter(st.subs[id], m) :: Key(id, m.num)
  }

  ghost function FanOut(st: State, m: Message, now: int): State {
    st.(queue := AddRows(st.queue, FanOutKeys(st, m), m.id, now))
  }

  /** New rows for `keys`; rows that already exist are left alone. */
  ghost function AddRows(queue: Queue, keys: set<Key>, messageId: string, now: int): Queue {
    Tabulate(keys, k => NewRow(messageId, now)) + queue
  }

  ghost function SendMessage(st: State, draft: Message, now: int): State {
    match InsertMessage(st.log, draft)
    case Err(_) => st
    case Ok(log) => FanOut(st.(log := log), Numbered(st.log, draft), now)
  }

  /** A decision is stored like a message and never fanned out. */
  function SendDecision(st: State, draft: Message): State {
    match InsertMessage(st.log, draft)
    case Err(_) => st
    case Ok(log) => st.(log := log, offBand := st.offBand + {(draft.room, Numbered(st.log, draft).num)})
  }

  function NewSubscription(st: State, room: RoomId, owner: string, f: Filters, since: Option<int>): Subscription {
    var start := if since.Some? then since.value else Tip(st.log, room);
    Subscription(room, owner, f, start, start, Active, 0)
  }

  function Subscribe(st: State, id: SubId, room: RoomId, owner: string, f: Filters, since: Option<int>, now: int): State {
    var sub := NewSubscription(st, room, owner, f, since);
    var created := st.(subs := st.subs[id := sub], acked := st.acked[id := []]);
    created.(queue := EnqueueRows(st.queue, id, sub, Past(st.log.rows, room, sub.sinceSeq), now))
  }

  /** Deleting a subscription cascades to its delivery rows. */
  function Unsubscribe(st: State, id: SubId, owner: string): State {
    if id !in st.subs || st.subs[id].owner != owner then st
    else st.(subs := st.subs - {id}, queue := st.queue - (set k | k in st.queue && k.sub == id))
  }

  function Enable(st: State, id: SubId, owner: string, now: int): State {
    if id !in st.subs || st.subs[id].owner != owner then st
    else
      var sub := st.subs[id];
      var active := st.(subs := st.subs[id := sub.(status := Active, failureCount := 0)]);
      var page := Take(Past(st.log.rows, sub.room, sub.lastDelivered), HISTORY_PAGE);
      active.(queue := EnqueueRows(st.queue, id, sub, page, now))
  }

  // --- The worker ---

  /** Due, and nothing earlier is pending for the same subscription. */
  predicate Due(queue: Queue, k: Key, now: int) {
    k in queue && queue[k].dueAt <= now && Head(queue, k)
  }

  predicate Head(queue: Queue, k: Key) {
    forall j :: j in queue && j.sub == k.sub ==> k.num <= j.num
  }

  predicate NotAfter(queue: Queue, j: Key, k: Key) {
    && j in queue && k in queue
    && (queue[j].dueAt < queue[k].dueAt || (queue[j].dueAt == queue[k].dueAt && j.num <= k.num))
  }

  /** Any answer the batch query may give: due rows ordered by due time and number,
      ties in any order, cut off after `limit`. */
  ghost predicate IsDueBatch(queue: Queue, now: int, limit: nat, batch: seq<Key>) {
    && (forall k :: k in batch ==> Due(queue, k, now))
    && (forall i, j :: 0 <= i < j < |batch| ==> batch[i] != batch[j] && NotAfter(queue, batch[i], batch[j]))
    && |batch| <= limit
    && (forall k :: Due(queue, k, now) && k !in batch ==>
          |batch| == limit && forall j :: j in batch ==> NotAfter(queue, j, k))
  }

  function Load(st: State, batch: seq<Key>): State {
    st.(inflight := st.queue - (set k | k in st.queue && k !in batch))
  }

  /** What finishing one delivery makes of its subscription and its row, and whether the
      receiver accepted it. */
  datatype Settled = Settled(sub: Option<Subscription>, row: Option<Delivery>, accepted: bool)

  /** `d` is the loaded copy of the row, `retained` whether its message still exists. */
  function Settle(sub: Option<Subscription>, row: Option<Delivery>, d: Delivery, num: int, retained: bool,
                  outcome: Outcome, now: int): Settled
  {
    if sub.None? || sub.value.status != Active || !retained then Settled(sub, None, false)
    else
      var failed := Some(sub.value.(status := Failed, failureCount := d.attempts + 1));
      match outcome
      case Blocked => Settled(failed, row, false)
      case Accepted2xx => Settled(Some(Advance(sub.value, num)), None, true)
      case Rejected =>
        if d.attempts >= |RETRY_SCHEDULE| then Settled(failed, None, false)
        else if row.None? then Settled(sub, None, false)
        else Settled(sub, Some(Retry(row.value, d.attempts, now)), false)
  }

  /** The cursor UPDATE, guarded by `new > last_delivered_seq`. */
  function Advance(sub: Subscription, num: int): Subscription {
    if sub.lastDelivered < num then sub.(lastDelivered := num, failureCount := 0) else sub
  }

  function Retry(row: Delivery, attempts: nat, now: int): Delivery
    requires attempts < |RETRY_SCHEDULE|
  {
    row.(attempts := attempts + 1, dueAt := now + 1000 * RETRY_SCHEDULE[attempts], posts := row.posts + [now])
  }

  /** One delivery of the loaded batch, run to its end. */
  function Process(st: State, k: Key, outcome: Outcome, now: int): State
    requires k in st.inflight
  {
    var d := st.inflight[k];
    var done := Settle(Find(st.subs, k.sub), Find(st.queue, k), d, k.num, HasId(st.log.rows, d.messageId), outcome, now);
    Finish(st, k, done)
  }

  function Finish(st: State, k: Key, done: Settled): State {
    st.(inflight := st.inflight - {k},
        subs := Put(st.subs, k.sub, done.sub),
        queue := Put(st.queue, k, done.row),
        acked := if done.accepted then st.acked[k.sub := Entries(st.acked, k.sub) + [k.num]] else st.acked)
  }

  function Entries<K, V>(m: map<K, seq<V>>, k: K): seq<V> {
    if k in m then m[k] else []
  }

  // --- Runs ---

  datatype Event =
    | Send(draft: Message)
    | Decide(draft: Message)
    | Legacy(row: Message)
    | Expire(gone: set<string>)
    | Reopened // the process stops, losing the loaded batch, and opens the database again
    | Subscribed(id: SubId, room: RoomId, owner: string, filters: Filters, since: Option<int>)
    | Unsubscribed(id: SubId, owner: string)
    | Enabled(id: SubId, owner: string)
    | Loaded(batch: seq<Key>)
    | Processed(key: Key, outcome: Outcome)

  datatype Timed = Timed(event: Event, now: int)

  /** What the server itself guarantees about the next step: subscription ids are new,
      the worker loads only when its last batch is finished and processes loaded rows. */
  ghost predicate Legal(st: State, e: Event, now: int) {
    && st.clock <= now
    && match e
       case Subscribed(id, _, _, _, _) => id !in st.acked
       case Loaded(batch) => st.inflight == map[] && IsDueBatch(st.queue, now, BATCH_LIMIT, batch)
       case Processed(k, _) => k in st.inflight
       case _ => true
  }

  ghost function Next(st: State, e: Event, now: int): State
    requires Legal(st, e, now)
  {
    var after :=
      match e
      case Send(draft) => SendMessage(st, draft, now)
      case Decide(draft) => SendDecision(st, draft)
      case Legacy(row) =>
        (match RawInsert(st.log, row)
         case Ok(log) => st.(log := log, offBand := st.offBand + {(row.room, row.num)})
         case Err(_) => st)
      case Expire(gone) => st.(log := Purge(st.log, gone))
      case Reopened => st.(log := Reopen(st.log), inflight := map[])
      case Subscribed(id, room, owner, f, since) => Subscribe(st, id, room, owner, f, since, now)
      case Unsubscribed(id, owner) => Unsubscribe(st, id, owner)
      case Enabled(id, owner) => Enable(st, id, owner, now)
      case Loaded(batch) => Load(st, batch)
      case Processed(k, outcome) => Process(st, k, outcome, now);
    after.(clock := now)
  }

  ghost predicate LeadsTo(st: State, t: Timed, next: State) {
    Legal(st, t.event, t.now) && next == Next(st, t.event, t.now)
  }

  type History = seq<Moment<State, Timed>>
}
